/**
 * Multi-tier purchase-order approval: a per-company configuration of two amount
 * thresholds, the approval level an order's amount requires, and the four
 * transitions (confirm, approve at level 1, approve at level 2, reject) that move
 * an order through draft, to_approve, approved_level1 and purchase.
 *
 * Each transition is a pure step function on the order's tracking state
 * (`Confirm`, `ApproveLevel1`, `ApproveLevel2`, `Reject`); the class
 * `PurchaseOrder` holds the fields the source assigns in place and its methods are
 * specified by those step functions.
 */
module PurchaseApproval {
  import opened Wrappers

  // ---------------------------------------------------------------------------
  // Approval configuration
  // ---------------------------------------------------------------------------

  datatype ApprovalConfig = ApprovalConfig(
    name: string,
    autoApproveLimit: real,
    level1ApproveLimit: real,
    companyId: nat,
    active: bool)

  const DefaultConfigName: string := "Default Approval Configuration"
  const DefaultAutoApproveLimit: real := 5000.0
  const DefaultLevel1ApproveLimit: real := 20000.0

  /** The invariant that the write-time constraint enforces on every configuration. */
  predicate ValidLimits(c: ApprovalConfig) {
    0.0 <= c.autoApproveLimit < c.level1ApproveLimit
  }

  /** The record `get_current_config` creates for a company that has none. */
  function DefaultConfig(companyId: nat): (c: ApprovalConfig)
    ensures c.companyId == companyId && c.active
    ensures ValidLimits(c)
  {
    ApprovalConfig(DefaultConfigName, DefaultAutoApproveLimit, DefaultLevel1ApproveLimit, companyId, true)
  }

  datatype ConfigError = AutoNotBelowLevel1 | NegativeLimit

  /**
   * The constraint run when a configuration's limits are written. The ordering
   * test comes first, so a negative limit is only reported for a configuration
   * whose limits are in order; by then the level-1 limit can be negative only if
   * the auto limit is too, so the error always means a negative auto limit.
   */
  function CheckApprovalLimits(c: ApprovalConfig): (r: Outcome<ConfigError>)
    ensures r.Pass? <==> ValidLimits(c)
    ensures r == Fail(NegativeLimit) ==> c.autoApproveLimit < 0.0
  {
    if c.autoApproveLimit >= c.level1ApproveLimit then Fail(AutoNotBelowLevel1)
    else if c.autoApproveLimit < 0.0 || c.level1ApproveLimit < 0.0 then Fail(NegativeLimit)
    else Pass
  }

  predicate IsActiveFor(c: ApprovalConfig, companyId: nat) {
    c.companyId == companyId && c.active
  }

  /** The search for an active configuration of a company: the first match in store order. */
  function FindActiveConfig(configs: seq<ApprovalConfig>, companyId: nat): (r: Option<nat>)
    ensures r.Some? ==> r.value < |configs| && IsActiveFor(configs[r.value], companyId)
    ensures r.Some? ==> forall j :: 0 <= j < r.value ==> !IsActiveFor(configs[j], companyId)
    ensures r.None? <==> forall j :: 0 <= j < |configs| ==> !IsActiveFor(configs[j], companyId)
    decreases |configs|
  {
    if |configs| == 0 then None
    else if IsActiveFor(configs[0], companyId) then Some(0)
    else match FindActiveConfig(configs[1..], companyId)
      case None => None
      case Some(i) => Some(i + 1)
  }

  /** The company `get_current_config` searches: the given one unless it is missing or 0. */
  function CompanyOrEnv(companyId: Option<nat>, envCompany: nat): nat {
    if companyId.None? || companyId.value == 0 then envCompany else companyId.value
  }

  /** The configuration `get_current_config` returns: the one found, else the default. */
  function CurrentConfig(configs: seq<ApprovalConfig>, companyId: nat): (c: ApprovalConfig)
    ensures IsActiveFor(c, companyId)
    ensures FindActiveConfig(configs, companyId).Some? ==> c == configs[FindActiveConfig(configs, companyId).value]
    ensures FindActiveConfig(configs, companyId).None? ==> c == DefaultConfig(companyId)
  {
    match FindActiveConfig(configs, companyId)
    case Some(i) => configs[i]
    case None => DefaultConfig(companyId)
  }

  /** The store after `get_current_config`: unchanged when a configuration was found. */
  function ConfigsAfterLookup(configs: seq<ApprovalConfig>, companyId: nat): (r: seq<ApprovalConfig>)
    ensures configs <= r && |r| <= |configs| + 1
    ensures |r| == |configs| <==> FindActiveConfig(configs, companyId).Some?
  {
    if FindActiveConfig(configs, companyId).Some? then configs else configs + [DefaultConfig(companyId)]
  }

  /** After a lookup the configuration it returned is the one a second lookup finds, so the second creates nothing. */
  lemma {:induction false} LookupIsGetOrCreate(configs: seq<ApprovalConfig>, companyId: nat)
    ensures FindActiveConfig(ConfigsAfterLookup(configs, companyId), companyId).Some?
    ensures ConfigsAfterLookup(ConfigsAfterLookup(configs, companyId), companyId) == ConfigsAfterLookup(configs, companyId)
    ensures CurrentConfig(ConfigsAfterLookup(configs, companyId), companyId) == CurrentConfig(configs, companyId)
  {
    var after := ConfigsAfterLookup(configs, companyId);
    if FindActiveConfig(configs, companyId).None? {
      var k := |configs|;
      assert IsActiveFor(after[k], companyId);
      assert forall j :: 0 <= j < k ==> after[j] == configs[j];
    }
  }

  /** A store whose configurations all passed the constraint only ever yields valid configurations. */
  lemma CurrentConfigValid(configs: seq<ApprovalConfig>, companyId: nat)
    requires forall i :: 0 <= i < |configs| ==> ValidLimits(configs[i])
    ensures ValidLimits(CurrentConfig(configs, companyId))
  {
  }

  /** The persisted `purchase.approval.config` records. */
  class ConfigStore {
    var configs: seq<ApprovalConfig>

    ghost predicate Valid()
      reads this
    {
      forall i :: 0 <= i < |configs| ==> ValidLimits(configs[i])
    }

    constructor ()
      ensures configs == [] && Valid()
    {
      configs := [];
    }

    /** Creating a configuration: refused unless it passes the limits constraint. */
    method Create(c: ApprovalConfig) returns (r: Outcome<ConfigError>)
      modifies this
      ensures r == CheckApprovalLimits(c)
      ensures configs == if r.Pass? then old(configs) + [c] else old(configs)
      ensures old(Valid()) ==> Valid()
    {
      r := CheckApprovalLimits(c);
      if r.Pass? {
        configs := configs + [c];
      }
    }

    /** Writing new values over an existing configuration: refused unless they pass the constraint. */
    method Update(i: nat, c: ApprovalConfig) returns (r: Outcome<ConfigError>)
      requires i < |configs|
      modifies this
      ensures r == CheckApprovalLimits(c)
      ensures configs == if r.Pass? then old(configs)[i := c] else old(configs)
      ensures old(Valid()) ==> Valid()
    {
      r := CheckApprovalLimits(c);
      if r.Pass? {
        configs := configs[i := c];
      }
    }

    /**
     * `get_current_config`: find the company's active configuration, creating the default
     * one if there is none. A missing company id, or id 0 (false in the source's test),
     * means the environment's company.
     */
    method GetCurrentConfig(companyId: Option<nat>, envCompany: nat) returns (config: ApprovalConfig)
      modifies this
      ensures config == CurrentConfig(old(configs), CompanyOrEnv(companyId, envCompany))
      ensures configs == ConfigsAfterLookup(old(configs), CompanyOrEnv(companyId, envCompany))
      ensures old(Valid()) ==> Valid()
    {
      var cid := CompanyOrEnv(companyId, envCompany);
      var found := FindActiveConfig(configs, cid);
      if found.Some? {
        config := configs[found.value];
      } else {
        config := DefaultConfig(cid);
        configs := configs + [config];
      }
    }
  }

  // ---------------------------------------------------------------------------
  // Approval level
  // ---------------------------------------------------------------------------

  datatype ApprovalLevel = Auto | Level1 | Level2

  /** `_compute_approval_level`: depends on nothing but the amount and the configuration. */
  function ApprovalLevelRequired(amount: real, c: ApprovalConfig): (r: ApprovalLevel)
    ensures r == Auto <==> amount <= c.autoApproveLimit
    ensures r == Level1 <==> c.autoApproveLimit < amount <= c.level1ApproveLimit
    ensures ValidLimits(c) ==> (r == Level2 <==> c.level1ApproveLimit < amount)
  {
    if amount <= c.autoApproveLimit then Auto
    else if amount <= c.level1ApproveLimit then Level1
    else Level2
  }

  function LevelRank(l: ApprovalLevel): nat {
    match l
    case Auto => 0
    case Level1 => 1
    case Level2 => 2
  }

  /** A larger amount never needs a lower level of approval, whatever the limits. */
  lemma ApprovalLevelMonotone(a: real, b: real, c: ApprovalConfig)
    requires a <= b
    ensures LevelRank(ApprovalLevelRequired(a, c)) <= LevelRank(ApprovalLevelRequired(b, c))
  {
  }

  // ---------------------------------------------------------------------------
  // Order states and transitions
  // ---------------------------------------------------------------------------

  datatype PoState = Draft | Sent | ToApprove | ApprovedLevel1 | ApprovedLevel2 | Purchase | Done | Cancel

  /** The four approver and date fields; a user is an id, a datetime an `int`. */
  datatype Approvals = Approvals(
    level1Approver: Option<nat>,
    level1Date: Option<int>,
    level2Approver: Option<nat>,
    level2Date: Option<int>)

  const NoApprovals: Approvals := Approvals(None, None, None, None)

  /** The part of an order the transitions read and write. */
  datatype Tracking = Tracking(state: PoState, approvals: Approvals)

  datatype ApprovalError = AccessDenied | WrongState

  /** A successful transition: the new tracking state and the notification key it emits. */
  datatype Step = Step(after: Tracking, notice: string)

  /** The notification types the dispatcher knows, with the mail template of each. */
  const TemplateTable: map<string, string> := map[
    "level1_required" := "purchase_approval_workflow.mail_template_level1_approval_request",
    "level2_required" := "purchase_approval_workflow.mail_template_level2_approval_request",
    "level1_approved_final" := "purchase_approval_workflow.mail_template_level1_approved",
    "level1_approved_pending_level2" := "purchase_approval_workflow.mail_template_level1_approved_pending_level2",
    "level2_approved_final" := "purchase_approval_workflow.mail_template_level2_approved",
    "auto_approved" := "purchase_approval_workflow.mail_template_auto_approved",
    "rejected" := "purchase_approval_workflow.mail_template_rejected"
  ]

  /** The key confirmation emits for each approval level. */
  function ConfirmNotice(l: ApprovalLevel): string {
    match l
    case Auto => "auto_approved"
    case Level1 => "level1_required"
    case Level2 => "level2_required"
  }

  /**
   * `button_confirm` for one order. An order outside draft/sent is skipped without
   * error; otherwise it is approved outright when no approval is required, else it
   * waits for approval, and the approver fields are left as they were.
   */
  function Confirm(t: Tracking, amount: real, c: ApprovalConfig): (r: Option<Step>)
    ensures r.None? <==> t.state !in {Draft, Sent}
    ensures r.Some? ==> r.value.after.approvals == t.approvals
    ensures r.Some? ==> r.value.after.state == if ApprovalLevelRequired(amount, c) == Auto then Purchase else ToApprove
    ensures r.Some? ==> r.value.notice == ConfirmNotice(ApprovalLevelRequired(amount, c))
    ensures r.Some? ==> r.value.notice in TemplateTable
  {
    if t.state !in {Draft, Sent} then None
    else if amount <= c.autoApproveLimit then Some(Step(Tracking(Purchase, t.approvals), "auto_approved"))
    else if amount <= c.level1ApproveLimit then Some(Step(Tracking(ToApprove, t.approvals), "level1_required"))
    else Some(Step(Tracking(ToApprove, t.approvals), "level2_required"))
  }

  /**
   * `action_approve_level1` for one order: the permission is checked before the
   * state; on success the level-1 approver and date are recorded and the order is
   * purchased when the amount is within the level-1 limit, else it waits for level 2.
   */
  function ApproveLevel1(t: Tracking, amount: real, c: ApprovalConfig, canApprove: bool, user: nat, now: int)
    : (r: Result<Step, ApprovalError>)
    ensures r == Err(AccessDenied) <==> !canApprove
    ensures r == Err(WrongState) <==> canApprove && t.state != ToApprove
    ensures r.Ok? ==> r.value.after.approvals == t.approvals.(level1Approver := Some(user), level1Date := Some(now))
    ensures r.Ok? ==> r.value.after.state == if amount <= c.level1ApproveLimit then Purchase else ApprovedLevel1
    ensures r.Ok? ==>
      r.value.notice == if amount <= c.level1ApproveLimit then "level1_approved_final" else "level1_approved_pending_level2"
    ensures r.Ok? ==> r.value.notice in TemplateTable
  {
    if !canApprove then Err(AccessDenied)
    else if t.state != ToApprove then Err(WrongState)
    else
      var approvals := t.approvals.(level1Approver := Some(user), level1Date := Some(now));
      if amount <= c.level1ApproveLimit then Ok(Step(Tracking(Purchase, approvals), "level1_approved_final"))
      else Ok(Step(Tracking(ApprovedLevel1, approvals), "level1_approved_pending_level2"))
  }

  /**
   * `action_approve_level2` for one order: permission first, then the state must be
   * to_approve or approved_level1; success records the level-2 approver and date and
   * always ends in purchase.
   */
  function ApproveLevel2(t: Tracking, canApprove: bool, user: nat, now: int): (r: Result<Step, ApprovalError>)
    ensures r == Err(AccessDenied) <==> !canApprove
    ensures r == Err(WrongState) <==> canApprove && t.state !in {ToApprove, ApprovedLevel1}
    ensures r.Ok? ==> r.value.after.state == Purchase
    ensures r.Ok? ==> r.value.after.approvals == t.approvals.(level2Approver := Some(user), level2Date := Some(now))
    ensures r.Ok? ==> r.value.notice == "level2_approved_final"
    ensures r.Ok? ==> r.value.notice in TemplateTable
  {
    if !canApprove then Err(AccessDenied)
    else if t.state !in {ToApprove, ApprovedLevel1} then Err(WrongState)
    else Ok(Step(Tracking(Purchase, t.approvals.(level2Approver := Some(user), level2Date := Some(now))),
                 "level2_approved_final"))
  }

  /** `action_reject` for one order: only a pending order can be rejected; it returns to draft with every approval cleared. */
  function Reject(t: Tracking): (r: Result<Step, ApprovalError>)
    ensures r.Ok? <==> t.state in {ToApprove, ApprovedLevel1}
    ensures r.Err? ==> r.error == WrongState
    ensures r.Ok? ==> r.value.after == Tracking(Draft, NoApprovals)
    ensures r.Ok? ==> r.value.notice == "rejected"
    ensures r.Ok? ==> r.value.notice in TemplateTable
  {
    if t.state !in {ToApprove, ApprovedLevel1} then Err(WrongState)
    else Ok(Step(Tracking(Draft, NoApprovals), "rejected"))
  }

  /**
   * The invariant every transition keeps: an order not yet approved carries no
   * approval, one approved at level 1 only carries exactly the level-1 approval,
   * and no order is ever in approved_level2.
   */
  predicate WellTracked(t: Tracking) {
    && (t.state in {Draft, Sent, ToApprove} ==> t.approvals == NoApprovals)
    && (t.state == ApprovedLevel1 ==>
          t.approvals.level1Approver.Some? && t.approvals.level1Date.Some?
          && t.approvals.level2Approver.None? && t.approvals.level2Date.None?)
    && t.state != ApprovedLevel2
  }

  lemma TransitionsPreserveWellTracked(t: Tracking, amount: real, c: ApprovalConfig, can: bool, user: nat, now: int)
    requires WellTracked(t)
    ensures Confirm(t, amount, c).Some? ==> WellTracked(Confirm(t, amount, c).value.after)
    ensures ApproveLevel1(t, amount, c, can, user, now).Ok? ==> WellTracked(ApproveLevel1(t, amount, c, can, user, now).value.after)
    ensures ApproveLevel2(t, can, user, now).Ok? ==> WellTracked(ApproveLevel2(t, can, user, now).value.after)
    ensures Reject(t).Ok? ==> WellTracked(Reject(t).value.after)
  {
  }

  /** No transition ever puts an order in approved_level2, whatever state it starts in. */
  lemma NoTransitionReachesApprovedLevel2(t: Tracking, amount: real, c: ApprovalConfig, can: bool, user: nat, now: int)
    ensures Confirm(t, amount, c).Some? ==> Confirm(t, amount, c).value.after.state != ApprovedLevel2
    ensures ApproveLevel1(t, amount, c, can, user, now).Ok? ==> ApproveLevel1(t, amount, c, can, user, now).value.after.state != ApprovedLevel2
    ensures ApproveLevel2(t, can, user, now).Ok? ==> ApproveLevel2(t, can, user, now).value.after.state != ApprovedLevel2
    ensures Reject(t).Ok? ==> Reject(t).value.after.state != ApprovedLevel2
  {
  }

  /**
   * The routes through approval a draft order takes under a valid configuration:
   * no approval, one level-1 approval, or a level-1 approval followed by a level-2
   * approval, each ending in purchase.
   */
  lemma ApprovalRoutes(amount: real, c: ApprovalConfig, u1: nat, t1: int, u2: nat, t2: int)
    requires ValidLimits(c)
    ensures var s0 := Tracking(Draft, NoApprovals);
      var s1 := Confirm(s0, amount, c).value.after;
      && (ApprovalLevelRequired(amount, c) == Auto ==> s1.state == Purchase)
      && (ApprovalLevelRequired(amount, c) == Level1 ==>
            s1.state == ToApprove && ApproveLevel1(s1, amount, c, true, u1, t1).value.after.state == Purchase)
      && (ApprovalLevelRequired(amount, c) == Level2 ==>
            var s2 := ApproveLevel1(s1, amount, c, true, u1, t1).value.after;
            s1.state == ToApprove && s2.state == ApprovedLevel1
            && ApproveLevel2(s2, true, u2, t2).value.after
               == Tracking(Purchase, Approvals(Some(u1), Some(t1), Some(u2), Some(t2))))
  {
  }

  /** Rejecting from either pending state gives the same draft order, however it got there. */
  lemma RejectForgetsHistory(a: Tracking, b: Tracking)
    requires a.state in {ToApprove, ApprovedLevel1} && b.state in {ToApprove, ApprovedLevel1}
    ensures Reject(a) == Reject(b)
  {
  }

  /** Worked examples with the default limits 5000 and 20000: 15000 needs one approval, 25000 two. */
  lemma DefaultLimitExamples(u: nat, now: int)
    ensures var c := DefaultConfig(1);
      var s := Confirm(Tracking(Draft, NoApprovals), 15000.0, c).value.after;
      s.state == ToApprove && ApproveLevel1(s, 15000.0, c, true, u, now).value.after.state == Purchase
    ensures var c := DefaultConfig(1);
      var s := Confirm(Tracking(Draft, NoApprovals), 25000.0, c).value.after;
      s.state == ToApprove && ApproveLevel1(s, 25000.0, c, true, u, now).value.after.state == ApprovedLevel1
  {
  }

  // ---------------------------------------------------------------------------
  // The purchase order record
  // ---------------------------------------------------------------------------

  /** The template ids a notification sends: none when dispatch fails or the key has no template. */
  function SentFor(key: string, delivered: bool): seq<string> {
    if delivered && key in TemplateTable then [TemplateTable[key]] else []
  }

  /** The fields of `purchase.order` that the approval workflow reads and writes. */
  class PurchaseOrder {
    var state: PoState
    var amountTotal: real
    var companyId: nat
    var approvalLevelRequired: ApprovalLevel
    var level1ApproverId: Option<nat>
    var level1ApprovalDate: Option<int>
    var level2ApproverId: Option<nat>
    var level2ApprovalDate: Option<int>
    /** The notification keys handed to the dispatcher, oldest first. */
    var notices: seq<string>
    /** The mail templates actually sent, oldest first. */
    var sentTemplates: seq<string>

    function Status(): Tracking
      reads this
    {
      Tracking(state, Approvals(level1ApproverId, level1ApprovalDate, level2ApproverId, level2ApprovalDate))
    }

    /** A new draft order; its stored approval level is computed on create, which may create the configuration. */
    constructor (amountTotal: real, companyId: nat, store: ConfigStore)
      modifies store
      ensures Status() == Tracking(Draft, NoApprovals) && WellTracked(Status())
      ensures this.amountTotal == amountTotal && this.companyId == companyId
      ensures approvalLevelRequired == ApprovalLevelRequired(amountTotal, CurrentConfig(old(store.configs), companyId))
      ensures store.configs == ConfigsAfterLookup(old(store.configs), companyId)
      ensures notices == [] && sentTemplates == []
    {
      var config := store.GetCurrentConfig(Some(companyId), companyId);
      state := Draft;
      this.amountTotal := amountTotal;
      this.companyId := companyId;
      approvalLevelRequired := ApprovalLevelRequired(amountTotal, config);
      level1ApproverId, level1ApprovalDate := None, None;
      level2ApproverId, level2ApprovalDate := None, None;
      notices, sentTemplates := [], [];
    }

    /** `_compute_approval_level`, run when the amount or the company changes. */
    method ComputeApprovalLevel(store: ConfigStore)
      modifies this, store
      ensures approvalLevelRequired == ApprovalLevelRequired(amountTotal, CurrentConfig(old(store.configs), companyId))
      ensures store.configs == ConfigsAfterLookup(old(store.configs), companyId)
      ensures Status() == old(Status()) && amountTotal == old(amountTotal) && companyId == old(companyId)
      ensures notices == old(notices) && sentTemplates == old(sentTemplates)
    {
      var config := store.GetCurrentConfig(Some(companyId), companyId);
      approvalLevelRequired := ApprovalLevelRequired(amountTotal, config);
    }

    /**
     * `_send_approval_notification`: the key is always emitted; a template is sent
     * only when the key has one and dispatch succeeds, and a failure is swallowed.
     */
    method SendApprovalNotification(key: string, delivered: bool)
      modifies this
      ensures notices == old(notices) + [key]
      ensures sentTemplates == old(sentTemplates) + SentFor(key, delivered)
      ensures Status() == old(Status()) && amountTotal == old(amountTotal) && companyId == old(companyId)
      ensures approvalLevelRequired == old(approvalLevelRequired)
    {
      notices := notices + [key];
      var templateId := if key in TemplateTable then Some(TemplateTable[key]) else None;
      if templateId.Some? && delivered {
        sentTemplates := sentTemplates + [templateId.value];
      }
    }

    /** `button_confirm` for this order; it always reports success. */
    method ButtonConfirm(store: ConfigStore, delivered: bool) returns (ok: bool)
      modifies this, store
      ensures ok
      ensures amountTotal == old(amountTotal) && companyId == old(companyId)
      ensures approvalLevelRequired == old(approvalLevelRequired)
      ensures match Confirm(old(Status()), amountTotal, CurrentConfig(old(store.configs), companyId))
        case None =>
          Status() == old(Status()) && store.configs == old(store.configs)
          && notices == old(notices) && sentTemplates == old(sentTemplates)
        case Some(step) =>
          Status() == step.after && store.configs == ConfigsAfterLookup(old(store.configs), companyId)
          && notices == old(notices) + [step.notice]
          && sentTemplates == old(sentTemplates) + SentFor(step.notice, delivered)
    {
      ok := true;
      if state !in {Draft, Sent} {
        return;
      }
      var config := store.GetCurrentConfig(Some(companyId), companyId);
      if amountTotal <= config.autoApproveLimit {
        state := Purchase;
        SendApprovalNotification("auto_approved", delivered);
      } else if amountTotal <= config.level1ApproveLimit {
        state := ToApprove;
        SendApprovalNotification("level1_required", delivered);
      } else {
        state := ToApprove;
        SendApprovalNotification("level2_required", delivered);
      }
    }

    /** `action_approve_level1` for this order; an error leaves everything as it was. */
    method ActionApproveLevel1(store: ConfigStore, canApprove: bool, user: nat, now: int, delivered: bool)
      returns (r: Outcome<ApprovalError>)
      modifies this, store
      ensures amountTotal == old(amountTotal) && companyId == old(companyId)
      ensures approvalLevelRequired == old(approvalLevelRequired)
      ensures match ApproveLevel1(old(Status()), amountTotal, CurrentConfig(old(store.configs), companyId), canApprove, user, now)
        case Err(e) =>
          r == Fail(e) && Status() == old(Status()) && store.configs == old(store.configs)
          && notices == old(notices) && sentTemplates == old(sentTemplates)
        case Ok(step) =>
          r == Pass && Status() == step.after && store.configs == ConfigsAfterLookup(old(store.configs), companyId)
          && notices == old(notices) + [step.notice]
          && sentTemplates == old(sentTemplates) + SentFor(step.notice, delivered)
    {
      if !canApprove {
        return Fail(AccessDenied);
      }
      if state != ToApprove {
        return Fail(WrongState);
      }
      var config := store.GetCurrentConfig(Some(companyId), companyId);
      level1ApproverId := Some(user);
      level1ApprovalDate := Some(now);
      if amountTotal <= config.level1ApproveLimit {
        state := Purchase;
        SendApprovalNotification("level1_approved_final", delivered);
      } else {
        state := ApprovedLevel1;
        SendApprovalNotification("level1_approved_pending_level2", delivered);
      }
      r := Pass;
    }

    /** `action_approve_level2` for this order; an error leaves everything as it was. */
    method ActionApproveLevel2(canApprove: bool, user: nat, now: int, delivered: bool) returns (r: Outcome<ApprovalError>)
      modifies this
      ensures amountTotal == old(amountTotal) && companyId == old(companyId)
      ensures approvalLevelRequired == old(approvalLevelRequired)
      ensures match ApproveLevel2(old(Status()), canApprove, user, now)
        case Err(e) =>
          r == Fail(e) && Status() == old(Status()) && notices == old(notices) && sentTemplates == old(sentTemplates)
        case Ok(step) =>
          r == Pass && Status() == step.after && notices == old(notices) + [step.notice]
          && sentTemplates == old(sentTemplates) + SentFor(step.notice, delivered)
    {
      if !canApprove {
        return Fail(AccessDenied);
      }
      if state !in {ToApprove, ApprovedLevel1} {
        return Fail(WrongState);
      }
      level2ApproverId := Some(user);
      level2ApprovalDate := Some(now);
      state := Purchase;
      SendApprovalNotification("level2_approved_final", delivered);
      r := Pass;
    }

    /** `action_reject` for this order; an error leaves everything as it was. */
    method ActionReject(delivered: bool) returns (r: Outcome<ApprovalError>)
      modifies this
      ensures amountTotal == old(amountTotal) && companyId == old(companyId)
      ensures approvalLevelRequired == old(approvalLevelRequired)
      ensures match Reject(old(Status()))
        case Err(e) =>
          r == Fail(e) && Status() == old(Status()) && notices == old(notices) && sentTemplates == old(sentTemplates)
        case Ok(step) =>
          r == Pass && Status() == step.after && notices == old(notices) + [step.notice]
          && sentTemplates == old(sentTemplates) + SentFor(step.notice, delivered)
    {
      if state !in {ToApprove, ApprovedLevel1} {
        return Fail(WrongState);
      }
      state := Draft;
      level1ApproverId := None;
      level1ApprovalDate := None;
      level2ApproverId := None;
      level2ApprovalDate := None;
      SendApprovalNotification("rejected", delivered);
      r := Pass;
    }
  }
}

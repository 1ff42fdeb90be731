/**
 * Discount rules: their write-time validity constraints, when a rule applies to an
 * order amount, customer group and date, the discount a rule gives, and the
 * selection of the rule giving the largest discount, the first such rule in store
 * order winning a tie.
 */
module DiscountRules {
  import opened Wrappers

  /**
   * A `sale.discount.rule` record. A `maxAmount` of zero means "no upper bound"
   * (the source tests the float for truth); `customerGroup` and `validTo` are
   * optional; dates are day numbers.
   */
  datatype DiscountRule = DiscountRule(
    id: nat,
    name: string,
    sequence: int,
    active: bool,
    minAmount: real,
    maxAmount: real,
    discountPercent: real,
    customerGroup: Option<nat>,
    validFrom: int,
    validTo: Option<int>,
    companyId: nat)

  // ---------------------------------------------------------------------------
  // Write-time constraints
  // ---------------------------------------------------------------------------

  datatype RuleError = NegativeMinimum | MaximumNotAboveMinimum | PercentOutOfRange | ValidFromAfterValidTo

  /** `_check_amounts`. A negative maximum is set, so it is refused, as is any maximum at or below the minimum. */
  function CheckAmounts(r: DiscountRule): (o: Outcome<RuleError>)
    ensures o.Pass? <==> 0.0 <= r.minAmount && (r.maxAmount != 0.0 ==> r.minAmount < r.maxAmount)
    ensures o.Pass? ==> 0.0 <= r.maxAmount
  {
    if r.minAmount < 0.0 then Fail(NegativeMinimum)
    else if r.maxAmount != 0.0 && r.maxAmount <= r.minAmount then Fail(MaximumNotAboveMinimum)
    else Pass
  }

  /** `_check_discount_percent`. */
  function CheckDiscountPercent(r: DiscountRule): (o: Outcome<RuleError>)
    ensures o.Pass? <==> 0.0 <= r.discountPercent <= 100.0
  {
    if r.discountPercent < 0.0 || r.discountPercent > 100.0 then Fail(PercentOutOfRange) else Pass
  }

  /** `_check_validity_dates`: an open-ended rule always passes. */
  function CheckValidityDates(r: DiscountRule): (o: Outcome<RuleError>)
    ensures o.Pass? <==> (r.validTo.Some? ==> r.validFrom <= r.validTo.value)
  {
    if r.validTo.Some? && r.validFrom > r.validTo.value then Fail(ValidFromAfterValidTo) else Pass
  }

  /** All three constraints, run in declaration order when a rule is written; the first failure refuses the write. */
  function ValidateRule(r: DiscountRule): (o: Outcome<RuleError>)
    ensures o.Pass? <==> CheckAmounts(r).Pass? && CheckDiscountPercent(r).Pass? && CheckValidityDates(r).Pass?
  {
    if CheckAmounts(r).Fail? then CheckAmounts(r)
    else if CheckDiscountPercent(r).Fail? then CheckDiscountPercent(r)
    else CheckValidityDates(r)
  }

  /** A rule that the constraints let through. */
  predicate ValidRule(r: DiscountRule) {
    ValidateRule(r).Pass?
  }

  lemma ValidRuleMeans(r: DiscountRule)
    ensures ValidRule(r) <==>
      && 0.0 <= r.minAmount
      && (r.maxAmount != 0.0 ==> r.minAmount < r.maxAmount)
      && 0.0 <= r.discountPercent <= 100.0
      && (r.validTo.Some? ==> r.validFrom <= r.validTo.value)
  {
  }

  // ---------------------------------------------------------------------------
  // Applicability
  // ---------------------------------------------------------------------------

  /**
   * `is_applicable`, test by test in the source's order; a missing order date means
   * today. A rule applies exactly when it is active, the amount lies in its range,
   * the date in its validity window, and the groups do not conflict.
   */
  predicate IsApplicable(rule: DiscountRule, amount: real, group: Option<nat>, orderDate: Option<int>, today: int)
    ensures IsApplicable(rule, amount, group, orderDate, today) <==>
      rule.active && InAmountRange(rule, amount) && InValidity(rule, orderDate.GetOr(today)) && GroupMatches(rule, group)
  {
    if !rule.active then false
    else if amount < rule.minAmount then false
    else if rule.maxAmount != 0.0 && amount > rule.maxAmount then false
    else
      var checkDate := orderDate.GetOr(today);
      if checkDate < rule.validFrom then false
      else if rule.validTo.Some? && checkDate > rule.validTo.value then false
      else if rule.customerGroup.Some? && group.Some? && group.value != rule.customerGroup.value then false
      else true
  }

  /** The amount lies in the rule's range; a zero maximum leaves the range unbounded above. */
  predicate InAmountRange(rule: DiscountRule, amount: real) {
    rule.minAmount <= amount && (rule.maxAmount == 0.0 || amount <= rule.maxAmount)
  }

  /** The date lies in the rule's validity window; a missing end leaves it open. */
  predicate InValidity(rule: DiscountRule, date: int) {
    rule.validFrom <= date && (rule.validTo.None? || date <= rule.validTo.value)
  }

  /** A group excludes a rule only when both the rule's and the requested group are set and differ. */
  predicate GroupMatches(rule: DiscountRule, group: Option<nat>) {
    rule.customerGroup.None? || group.None? || group == rule.customerGroup
  }

  lemma InactiveNeverApplicable(rule: DiscountRule, amount: real, group: Option<nat>, orderDate: Option<int>, today: int)
    requires !rule.active
    ensures !IsApplicable(rule, amount, group, orderDate, today)
  {
  }

  // ---------------------------------------------------------------------------
  // The discount of a rule
  // ---------------------------------------------------------------------------

  /** `calculate_discount`: the rule's percentage of the amount. */
  function CalculateDiscount(rule: DiscountRule, amount: real): (d: real)
    ensures d * 100.0 == amount * rule.discountPercent
  {
    amount * (rule.discountPercent / 100.0)
  }

  /** A rule that passed its constraints never discounts a non-negative amount below zero or above the amount. */
  lemma DiscountWithinAmount(rule: DiscountRule, amount: real)
    requires 0.0 <= rule.discountPercent <= 100.0
    requires 0.0 <= amount
    ensures 0.0 <= CalculateDiscount(rule, amount) <= amount
  {
    assert 0.0 <= amount * rule.discountPercent;
    assert 0.0 <= amount * (100.0 - rule.discountPercent);
  }

  /** On a positive amount, comparing discounts is comparing percentages. */
  lemma LargerDiscountLargerPercent(a: DiscountRule, b: DiscountRule, amount: real)
    requires 0.0 < amount
    ensures CalculateDiscount(a, amount) <= CalculateDiscount(b, amount) <==> a.discountPercent <= b.discountPercent
  {
    var da, db := CalculateDiscount(a, amount), CalculateDiscount(b, amount);
    if a.discountPercent <= b.discountPercent {
      assert amount * a.discountPercent <= amount * b.discountPercent;
    } else {
      assert amount * b.discountPercent < amount * a.discountPercent;
    }
  }

  // ---------------------------------------------------------------------------
  // Selecting the best rule
  // ---------------------------------------------------------------------------

  /** An applicable rule with the discount it gives, as collected in `applicable_rules`. */
  datatype Candidate = Candidate(rule: DiscountRule, discount: real)

  /** The applicable rules, in the order the rules are given, each with its discount. */
  function Candidates(rules: seq<DiscountRule>, amount: real, group: Option<nat>, orderDate: Option<int>, today: int)
    : (cs: seq<Candidate>)
    ensures |cs| <= |rules|
    decreases |rules|
  {
    if |rules| == 0 then []
    else
      var prefix := Candidates(rules[..|rules| - 1], amount, group, orderDate, today);
      var last := rules[|rules| - 1];
      if IsApplicable(last, amount, group, orderDate, today)
      then prefix + [Candidate(last, CalculateDiscount(last, amount))]
      else prefix
  }

  /** Each candidate is one of `rules` that applies, with its discount. */
  predicate OnlyApplicable(cs: seq<Candidate>, rules: seq<DiscountRule>, amount: real, group: Option<nat>,
                           orderDate: Option<int>, today: int) {
    forall k :: 0 <= k < |cs| ==>
      cs[k].rule in rules && IsApplicable(cs[k].rule, amount, group, orderDate, today)
      && cs[k].discount == CalculateDiscount(cs[k].rule, amount)
  }

  /** Each of `rules` that applies is a candidate, with its discount. */
  predicate AllApplicable(cs: seq<Candidate>, rules: seq<DiscountRule>, amount: real, group: Option<nat>,
                          orderDate: Option<int>, today: int) {
    forall i :: 0 <= i < |rules| && IsApplicable(rules[i], amount, group, orderDate, today) ==>
      Candidate(rules[i], CalculateDiscount(rules[i], amount)) in cs
  }

  /**
   * The candidates are exactly the applicable rules: each one is a rule that applies,
   * with its discount, and every applicable rule is among them.
   */
  lemma {:induction false} CandidatesMeans(rules: seq<DiscountRule>, amount: real, group: Option<nat>, orderDate: Option<int>, today: int)
    ensures OnlyApplicable(Candidates(rules, amount, group, orderDate, today), rules, amount, group, orderDate, today)
    ensures AllApplicable(Candidates(rules, amount, group, orderDate, today), rules, amount, group, orderDate, today)
    decreases |rules|
  {
    if |rules| > 0 {
      var init := rules[..|rules| - 1];
      CandidatesMeans(init, amount, group, orderDate, today);
      assert forall i :: 0 <= i < |rules| - 1 ==> init[i] == rules[i];
      assert forall r :: r in init ==> r in rules;
    }
  }

  /** Python's `max` with a key: the index of the first candidate with the largest discount. */
  function MaxFirst(cs: seq<Candidate>): (i: nat)
    requires |cs| > 0
    ensures i < |cs|
    ensures forall j :: 0 <= j < |cs| ==> cs[j].discount <= cs[i].discount
    ensures forall j :: 0 <= j < i ==> cs[j].discount < cs[i].discount
    decreases |cs|
  {
    if |cs| == 1 then 0
    else
      var m := MaxFirst(cs[..|cs| - 1]);
      if cs[|cs| - 1].discount > cs[m].discount then |cs| - 1 else m
  }

  /** `find_applicable_rules`: no rule when none applies, else the first applicable rule with the largest discount. */
  function FindApplicableRule(rules: seq<DiscountRule>, amount: real, group: Option<nat>, orderDate: Option<int>, today: int)
    : (r: Option<DiscountRule>)
    ensures r.Some? ==> r.value in rules && IsApplicable(r.value, amount, group, orderDate, today)
  {
    CandidatesMeans(rules, amount, group, orderDate, today);
    var cs := Candidates(rules, amount, group, orderDate, today);
    if |cs| == 0 then None else Some(cs[MaxFirst(cs)].rule)
  }

  /** No rule is chosen exactly when no rule applies. */
  lemma FindNoneIffNoneApplicable(rules: seq<DiscountRule>, amount: real, group: Option<nat>, orderDate: Option<int>, today: int)
    ensures FindApplicableRule(rules, amount, group, orderDate, today).None? <==>
      forall i :: 0 <= i < |rules| ==> !IsApplicable(rules[i], amount, group, orderDate, today)
  {
    var cs := Candidates(rules, amount, group, orderDate, today);
    CandidatesMeans(rules, amount, group, orderDate, today);
    if |cs| > 0 {
      assert cs[0].rule in rules;
    }
  }

  /** A chosen rule applies and gives a discount at least as large as every applicable rule's. */
  lemma FoundRuleIsBest(rules: seq<DiscountRule>, amount: real, group: Option<nat>, orderDate: Option<int>, today: int)
    requires FindApplicableRule(rules, amount, group, orderDate, today).Some?
    ensures var best := FindApplicableRule(rules, amount, group, orderDate, today).value;
      && best in rules
      && IsApplicable(best, amount, group, orderDate, today)
      && forall i :: 0 <= i < |rules| && IsApplicable(rules[i], amount, group, orderDate, today) ==>
           CalculateDiscount(rules[i], amount) <= CalculateDiscount(best, amount)
  {
    CandidatesMeans(rules, amount, group, orderDate, today);
  }

  /** The store's order of rules: by `sequence`, then by `id`. */
  predicate RuleBefore(a: DiscountRule, b: DiscountRule) {
    a.sequence < b.sequence || (a.sequence == b.sequence && a.id <= b.id)
  }

  predicate SortedBySequenceId(rules: seq<DiscountRule>) {
    forall i, j :: 0 <= i < j < |rules| ==> RuleBefore(rules[i], rules[j])
  }

  function CandidateRules(cs: seq<Candidate>): (rs: seq<DiscountRule>)
    ensures |rs| == |cs| && forall k :: 0 <= k < |cs| ==> rs[k] == cs[k].rule
  {
    if |cs| == 0 then [] else CandidateRules(cs[..|cs| - 1]) + [cs[|cs| - 1].rule]
  }

  /** Collecting the applicable rules keeps the store's order. */
  lemma {:induction false} CandidatesSorted(rules: seq<DiscountRule>, amount: real, group: Option<nat>, orderDate: Option<int>, today: int)
    requires SortedBySequenceId(rules)
    ensures SortedBySequenceId(CandidateRules(Candidates(rules, amount, group, orderDate, today)))
    decreases |rules|
  {
    if |rules| > 0 {
      var init := rules[..|rules| - 1];
      var last := rules[|rules| - 1];
      CandidatesSorted(init, amount, group, orderDate, today);
      CandidatesMeans(init, amount, group, orderDate, today);
      var prefix := Candidates(init, amount, group, orderDate, today);
      if IsApplicable(last, amount, group, orderDate, today) {
        var cs := prefix + [Candidate(last, CalculateDiscount(last, amount))];
        var rs := CandidateRules(cs);
        forall i, j | 0 <= i < j < |rs| ensures RuleBefore(rs[i], rs[j]) {
          assert rs[i] == cs[i].rule && rs[j] == cs[j].rule;
          if j < |prefix| {
            assert cs[i] == prefix[i] && cs[j] == prefix[j];
            assert CandidateRules(prefix)[i] == prefix[i].rule;
            assert CandidateRules(prefix)[j] == prefix[j].rule;
          } else {
            assert cs[i] == prefix[i];
            assert prefix[i].rule in init;
            var p :| 0 <= p < |init| && init[p] == prefix[i].rule;
            assert rules[p] == init[p];
          }
        }
      }
    }
  }

  /**
   * The tie-break: when the rules come in `(sequence, id)` order, any other
   * applicable rule giving the same discount as the chosen one does not come
   * before it in that order.
   */
  lemma TieGoesToEarliest(rules: seq<DiscountRule>, amount: real, group: Option<nat>, orderDate: Option<int>, today: int,
                          other: DiscountRule)
    requires SortedBySequenceId(rules)
    requires FindApplicableRule(rules, amount, group, orderDate, today).Some?
    requires other in rules && IsApplicable(other, amount, group, orderDate, today)
    requires CalculateDiscount(other, amount) == CalculateDiscount(FindApplicableRule(rules, amount, group, orderDate, today).value, amount)
    ensures RuleBefore(FindApplicableRule(rules, amount, group, orderDate, today).value, other)
  {
    var cs := Candidates(rules, amount, group, orderDate, today);
    var b := MaxFirst(cs);
    CandidatesMeans(rules, amount, group, orderDate, today);
    var i :| 0 <= i < |rules| && rules[i] == other;
    var k :| 0 <= k < |cs| && cs[k] == Candidate(rules[i], CalculateDiscount(rules[i], amount));
    CandidatesSorted(rules, amount, group, orderDate, today);
    var rs := CandidateRules(cs);
    if k > b {
      assert RuleBefore(rs[b], rs[k]);
    }
  }

  /** The loop of `find_applicable_rules` followed by its `max`, proved to compute `FindApplicableRule`. */
  method FindApplicableRules(rules: seq<DiscountRule>, amount: real, group: Option<nat>, orderDate: Option<int>, today: int)
    returns (best: Option<DiscountRule>)
    ensures best == FindApplicableRule(rules, amount, group, orderDate, today)
  {
    var applicable: seq<Candidate> := [];
    var i := 0;
    while i < |rules|
      invariant 0 <= i <= |rules|
      invariant applicable == Candidates(rules[..i], amount, group, orderDate, today)
    {
      assert rules[..i + 1][..i] == rules[..i];
      if IsApplicable(rules[i], amount, group, orderDate, today) {
        var discountAmount := CalculateDiscount(rules[i], amount);
        applicable := applicable + [Candidate(rules[i], discountAmount)];
      }
      i := i + 1;
    }
    assert rules[..|rules|] == rules;
    if |applicable| == 0 {
      return None;
    }
    var top := 0;
    var k := 1;
    while k < |applicable|
      invariant 1 <= k <= |applicable|
      invariant top == MaxFirst(applicable[..k])
    {
      assert applicable[..k + 1][..k] == applicable[..k];
      if applicable[k].discount > applicable[top].discount {
        top := k;
      }
      k := k + 1;
    }
    assert applicable[..k] == applicable;
    best := Some(applicable[top].rule);
  }

  /** The worked example: at 800, a 5% rule on [0, 1000] and a 10% rule on [500, 2000] both apply, and the 10% rule wins. */
  lemma TwoRuleExample(today: int)
    ensures var a := DiscountRule(1, "A", 10, true, 0.0, 1000.0, 5.0, None, today, None, 1);
      var b := DiscountRule(2, "B", 10, true, 500.0, 2000.0, 10.0, None, today, None, 1);
      && CalculateDiscount(a, 800.0) == 40.0 && CalculateDiscount(b, 800.0) == 80.0
      && FindApplicableRule([a, b], 800.0, None, None, today) == Some(b)
  {
    var a := DiscountRule(1, "A", 10, true, 0.0, 1000.0, 5.0, None, today, None, 1);
    var b := DiscountRule(2, "B", 10, true, 500.0, 2000.0, 10.0, None, today, None, 1);
    assert [a, b][..1] == [a];
    assert [a][..0] == [];
    assert IsApplicable(a, 800.0, None, None, today) && IsApplicable(b, 800.0, None, None, today);
    assert Candidates([], 800.0, None, None, today) == [];
    assert Candidates([a], 800.0, None, None, today) == [Candidate(a, 40.0)];
    var cs := Candidates([a, b], 800.0, None, None, today);
    assert cs == [Candidate(a, 40.0), Candidate(b, 80.0)];
    assert cs[..1] == [Candidate(a, 40.0)];
  }
}

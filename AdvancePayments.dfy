/**
 * Advance payments on sales orders: an amount collected before invoicing, kept
 * between zero and the order total, that confirmation posts once as a two-line
 * journal entry (debit the customer's receivable account, credit the liability
 * account "2010", created the first time it is needed) and links to the order.
 *
 * The order's fields and the accounting records are classes, since the source
 * changes them in place; each of their methods is specified by a pure step
 * function on the values `AdvanceOrder` and `Books`, and the lemmas state what the
 * steps promise (the bound, the onchange rules, a balanced two-line entry,
 * get-or-create of the account, the journal fallback, no double posting).
 */
module AdvancePayments {
  import opened Wrappers

  /** `advance_payment_state`: none, pending, recorded. */
  datatype AdvanceState = NoAdvance | Pending | Recorded

  datatype AdvanceError =
    | NegativeAdvance        // the advance is below zero
    | AdvanceExceedsTotal    // the advance is above the order total
    | NoReceivableAccount    // the customer has no receivable account configured
    | NoJournal              // there is no journal at all

  // ---------------------------------------------------------------------------
  // The advance amount and its state
  // ---------------------------------------------------------------------------

  /** `_onchange_advance_payment`: the state after the advance amount is edited. */
  function OnchangeState(advance: real, s: AdvanceState): (r: AdvanceState)
    ensures r == NoAdvance <==> advance <= 0.0
    ensures r == Pending <==> 0.0 < advance && s != Recorded
    ensures r == Recorded <==> 0.0 < advance && s == Recorded
  {
    if advance > 0.0 then
      if s == NoAdvance then Pending
      else assert s == Pending || s == Recorded; s
    else NoAdvance
  }

  /** Editing the same amount again changes nothing more. */
  lemma OnchangeIsIdempotent(advance: real, s: AdvanceState)
    ensures OnchangeState(advance, OnchangeState(advance, s)) == OnchangeState(advance, s)
  {
  }

  /** `_check_advance_payment`: the negative check first, then the bound by the order total. */
  function CheckAdvancePayment(advance: real, amountTotal: real): (r: Outcome<AdvanceError>)
    ensures r.Pass? <==> 0.0 <= advance <= amountTotal
    ensures r == Fail(NegativeAdvance) <==> advance < 0.0
    ensures r == Fail(AdvanceExceedsTotal) <==> 0.0 <= advance && amountTotal < advance
  {
    if advance < 0.0 then Fail(NegativeAdvance)
    else if advance > amountTotal then Fail(AdvanceExceedsTotal)
    else Pass
  }

  // ---------------------------------------------------------------------------
  // Accounts, journals and journal entries
  // ---------------------------------------------------------------------------

  datatype Account = Account(id: nat, name: string, code: string, accountType: string)

  datatype Journal = Journal(id: nat, name: string, journalType: string)

  /** One line of an `account.move`. */
  datatype MoveLine = MoveLine(name: string, accountId: nat, partnerId: nat, debit: real, credit: real)

  /** An `account.move` of type "entry"; `posted` is set by `action_post`. */
  datatype Move = Move(
    id: nat,
    moveType: string,
    journalId: nat,
    partnerId: nat,
    date: int,
    ref: string,
    lines: seq<MoveLine>,
    posted: bool)

  const AdvanceAccountCode: string := "2010"
  const AdvanceAccountName: string := "Advance Payments from Customers"
  const LiabilityCurrent: string := "liability_current"
  const GeneralJournal: string := "general"

  function FindAccountByCode(accounts: seq<Account>, code: string): (r: Option<nat>)
    ensures r.Some? ==> r.value < |accounts| && accounts[r.value].code == code
    ensures r.Some? ==> forall j :: 0 <= j < r.value ==> accounts[j].code != code
    ensures r.None? <==> forall j :: 0 <= j < |accounts| ==> accounts[j].code != code
    decreases |accounts|
  {
    if |accounts| == 0 then None
    else if accounts[0].code == code then Some(0)
    else match FindAccountByCode(accounts[1..], code)
      case None => None
      case Some(i) => Some(i + 1)
  }

  /** The accounts, the next free account id and the account one lookup returns. */
  datatype AccountLookup = AccountLookup(accounts: seq<Account>, nextId: nat, account: Account)

  /**
   * `_get_advance_payment_account`: the first account with code 2010, or a new
   * current-liability account with that code appended to the accounts.
   */
  function LookupAdvanceAccount(accounts: seq<Account>, nextId: nat): (r: AccountLookup)
    ensures r.account.code == AdvanceAccountCode
    ensures FindAccountByCode(r.accounts, AdvanceAccountCode).Some?
    ensures r.account == r.accounts[FindAccountByCode(r.accounts, AdvanceAccountCode).value]
    ensures FindAccountByCode(accounts, AdvanceAccountCode).Some? ==> r.accounts == accounts && r.nextId == nextId
    ensures FindAccountByCode(accounts, AdvanceAccountCode).None? ==>
      r.accounts == accounts + [r.account] && r.account.id == nextId && r.nextId == nextId + 1
      && r.account.accountType == LiabilityCurrent
  {
    match FindAccountByCode(accounts, AdvanceAccountCode)
    case Some(i) => AccountLookup(accounts, nextId, accounts[i])
    case None =>
      var a := Account(nextId, AdvanceAccountName, AdvanceAccountCode, LiabilityCurrent);
      assert (accounts + [a])[|accounts|] == a;
      AccountLookup(accounts + [a], nextId + 1, a)
  }

  /** Get-or-create: a second lookup finds the same account and creates nothing. */
  lemma AdvanceAccountIsGetOrCreate(accounts: seq<Account>, nextId: nat)
    ensures var r := LookupAdvanceAccount(accounts, nextId);
      LookupAdvanceAccount(r.accounts, r.nextId) == r
  {
  }

  function FindJournalByType(journals: seq<Journal>, journalType: string): (r: Option<nat>)
    ensures r.Some? ==> r.value < |journals| && journals[r.value].journalType == journalType
    ensures r.Some? ==> forall j :: 0 <= j < r.value ==> journals[j].journalType != journalType
    ensures r.None? <==> forall j :: 0 <= j < |journals| ==> journals[j].journalType != journalType
    decreases |journals|
  {
    if |journals| == 0 then None
    else if journals[0].journalType == journalType then Some(0)
    else match FindJournalByType(journals[1..], journalType)
      case None => None
      case Some(i) => Some(i + 1)
  }

  /** `_get_advance_payment_journal`: the first general journal, else the first journal, else an error. */
  function ChooseJournal(journals: seq<Journal>): (r: Result<Journal, AdvanceError>)
    ensures r.Err? <==> |journals| == 0
    ensures r.Err? ==> r.error == NoJournal
    ensures r.Ok? ==> r.value in journals
    ensures (r.Ok? && r.value.journalType == GeneralJournal)
      <==> exists i :: 0 <= i < |journals| && journals[i].journalType == GeneralJournal
    ensures r.Ok? && r.value.journalType == GeneralJournal ==>
      exists i :: 0 <= i < |journals| && journals[i] == r.value
        && forall j :: 0 <= j < i ==> journals[j].journalType != GeneralJournal
    ensures r.Ok? && r.value.journalType != GeneralJournal ==> r.value == journals[0]
  {
    match FindJournalByType(journals, GeneralJournal)
    case Some(i) => Ok(journals[i])
    case None => if |journals| == 0 then Err(NoJournal) else Ok(journals[0])
  }

  function TotalDebit(lines: seq<MoveLine>): real
    decreases |lines|
  {
    if |lines| == 0 then 0.0 else TotalDebit(lines[..|lines| - 1]) + lines[|lines| - 1].debit
  }

  function TotalCredit(lines: seq<MoveLine>): real
    decreases |lines|
  {
    if |lines| == 0 then 0.0 else TotalCredit(lines[..|lines| - 1]) + lines[|lines| - 1].credit
  }

  predicate Balanced(m: Move) {
    TotalDebit(m.lines) == TotalCredit(m.lines)
  }

  /**
   * The two lines of the advance entry for order `orderName`: debit the
   * receivable account by the advance, credit the advance account by the same.
   */
  function AdvanceLines(orderName: string, partnerId: nat, receivableId: nat, advanceAccountId: nat, advance: real)
    : seq<MoveLine>
  {
    [ MoveLine("Advance Payment - " + orderName, receivableId, partnerId, advance, 0.0),
      MoveLine("Advance Received - " + orderName, advanceAccountId, partnerId, 0.0, advance) ]
  }

  /** The entry has exactly two lines, and its debits and its credits each total the advance. */
  lemma AdvanceLinesBalance(orderName: string, partnerId: nat, receivableId: nat, advanceAccountId: nat, advance: real)
    ensures var ls := AdvanceLines(orderName, partnerId, receivableId, advanceAccountId, advance);
      && |ls| == 2
      && ls[0].accountId == receivableId && ls[0].debit == advance && ls[0].credit == 0.0
      && ls[1].accountId == advanceAccountId && ls[1].debit == 0.0 && ls[1].credit == advance
      && TotalDebit(ls) == advance && TotalCredit(ls) == advance
  {
    var ls := AdvanceLines(orderName, partnerId, receivableId, advanceAccountId, advance);
    assert ls[..1][..0] == [];
    assert ls[..|ls| - 1] == ls[..1];
    assert TotalDebit(ls[..1]) == advance && TotalCredit(ls[..1]) == 0.0;
  }

  // ---------------------------------------------------------------------------
  // The order and the books as values, and the steps on them
  // ---------------------------------------------------------------------------

  /** The fields of `sale.order` this feature reads and writes. */
  datatype AdvanceOrder = AdvanceOrder(
    name: string,
    partnerId: nat,
    receivableAccount: Option<nat>,  // the customer's `property_account_receivable_id`
    amountTotal: real,
    advancePayment: real,
    advanceState: AdvanceState,
    journalEntry: Option<nat>)       // `advance_journal_entry_id`

  /** The accounting records: accounts, journals, journal entries and the next free ids. */
  datatype Books = Books(
    accounts: seq<Account>,
    journals: seq<Journal>,
    moves: seq<Move>,
    nextAccountId: nat,
    nextMoveId: nat)

  datatype Posting = Posting(order: AdvanceOrder, books: Books)

  /** A write of the advance amount: kept when the constraint passes, rejected (and rolled back) otherwise. */
  function WriteAdvance(o: AdvanceOrder, advance: real): (r: Result<AdvanceOrder, AdvanceError>)
    ensures r.Ok? <==> 0.0 <= advance <= o.amountTotal
    ensures r.Ok? ==> r.value.advancePayment == advance && r.value.(advancePayment := o.advancePayment) == o
  {
    match CheckAdvancePayment(advance, o.amountTotal)
    case Pass => Ok(o.(advancePayment := advance))
    case Fail(e) => Err(e)
  }

  /**
   * `_create_advance_payment_entry`. With no positive advance nothing happens.
   * Otherwise a missing receivable account is an error, then so is the absence of
   * any journal; an error rolls everything back. On success the advance account is
   * looked up or created, one posted two-line entry is added, and the order is
   * linked to it in state recorded.
   */
  function CreateEntry(o: AdvanceOrder, b: Books, today: int): (r: Result<Posting, AdvanceError>)
    ensures o.advancePayment <= 0.0 ==> r == Ok(Posting(o, b))
    ensures 0.0 < o.advancePayment ==>
      && (r == Err(NoReceivableAccount) <==> o.receivableAccount.None?)
      && (r == Err(NoJournal) <==> o.receivableAccount.Some? && |b.journals| == 0)
    ensures 0.0 < o.advancePayment && o.receivableAccount.Some? && |b.journals| > 0 ==> r.Ok?
    ensures 0.0 < o.advancePayment && r.Ok? ==> |r.value.books.moves| == |b.moves| + 1
    ensures 0.0 < o.advancePayment && r.Ok? ==>
      var lk := LookupAdvanceAccount(b.accounts, b.nextAccountId);
      var m := r.value.books.moves[|b.moves|];
      && r.value.order == o.(advanceState := Recorded, journalEntry := Some(b.nextMoveId))
      && r.value.books == b.(accounts := lk.accounts, nextAccountId := lk.nextId,
                              moves := b.moves + [m], nextMoveId := b.nextMoveId + 1)
      && m.id == b.nextMoveId && m.posted && m.moveType == "entry" && m.date == today
      && m.partnerId == o.partnerId && m.journalId == ChooseJournal(b.journals).value.id
      && m.lines == AdvanceLines(o.name, o.partnerId, o.receivableAccount.value, lk.account.id, o.advancePayment)
  {
    if o.advancePayment <= 0.0 then Ok(Posting(o, b))
    else if o.receivableAccount.None? then Err(NoReceivableAccount)
    else match ChooseJournal(b.journals)
      case Err(e) => Err(e)
      case Ok(journal) =>
        var lk := LookupAdvanceAccount(b.accounts, b.nextAccountId);
        var m := Move(b.nextMoveId, "entry", journal.id, o.partnerId, today, "Advance Payment for " + o.name,
                      AdvanceLines(o.name, o.partnerId, o.receivableAccount.value, lk.account.id, o.advancePayment),
                      true);
        assert (b.moves + [m])[|b.moves|] == m;
        Ok(Posting(o.(advanceState := Recorded, journalEntry := Some(b.nextMoveId)),
                   b.(accounts := lk.accounts, nextAccountId := lk.nextId,
                      moves := b.moves + [m], nextMoveId := b.nextMoveId + 1)))
  }

  /** The part of `action_confirm` this feature adds: create the entry when there is an advance and no entry yet. */
  function Confirm(o: AdvanceOrder, b: Books, today: int): (r: Result<Posting, AdvanceError>)
    ensures o.advancePayment <= 0.0 || o.journalEntry.Some? ==> r == Ok(Posting(o, b))
    ensures 0.0 < o.advancePayment && r.Ok? ==> r.value.order.journalEntry.Some?
    ensures 0.0 < o.advancePayment && o.journalEntry.None? && r.Ok? ==>
      r.value.order.advanceState == Recorded && |r.value.books.moves| == |b.moves| + 1
    ensures 0.0 < o.advancePayment && o.journalEntry.None? && r.Err? ==>
      r == Err(NoReceivableAccount) || r == Err(NoJournal)
    ensures 0.0 < o.advancePayment && o.journalEntry.None? && o.receivableAccount.Some? && |b.journals| > 0 ==> r.Ok?
  {
    if o.advancePayment > 0.0 && o.journalEntry.None? then CreateEntry(o, b, today) else Ok(Posting(o, b))
  }

  /** Confirmation adds at most one entry, and exactly one when it had an advance and no linked entry. */
  lemma ConfirmPostsAtMostOnce(o: AdvanceOrder, b: Books, today: int)
    requires Confirm(o, b, today).Ok?
    ensures var p := Confirm(o, b, today).value;
      && p.books.moves[..|b.moves|] == b.moves
      && (|p.books.moves| == |b.moves| + 1 <==> 0.0 < o.advancePayment && o.journalEntry.None?)
      && (|p.books.moves| != |b.moves| + 1 ==> p == Posting(o, b))
  {
  }

  /** Confirming an order a second time never posts a second entry: it changes nothing. */
  lemma ConfirmNeverDoublePosts(o: AdvanceOrder, b: Books, today: int, later: int)
    requires Confirm(o, b, today).Ok?
    ensures var p := Confirm(o, b, today).value;
      Confirm(p.order, p.books, later) == Ok(p)
  {
  }

  /** The store's account ids: distinct, and all below the next free id. */
  predicate AccountIdsFresh(accounts: seq<Account>, nextId: nat) {
    && (forall i :: 0 <= i < |accounts| ==> accounts[i].id < nextId)
    && (forall i, j :: 0 <= i < j < |accounts| ==> accounts[i].id != accounts[j].id)
  }

  /** The store's journal entry ids: distinct, and all below the next free id. */
  predicate MoveIdsFresh(moves: seq<Move>, nextId: nat) {
    && (forall i :: 0 <= i < |moves| ==> moves[i].id < nextId)
    && (forall i, j :: 0 <= i < j < |moves| ==> moves[i].id != moves[j].id)
  }

  predicate FreshIds(b: Books) {
    AccountIdsFresh(b.accounts, b.nextAccountId) && MoveIdsFresh(b.moves, b.nextMoveId)
  }

  /** Looking up or creating the advance account keeps the account ids fresh. */
  lemma LookupKeepsAccountIdsFresh(accounts: seq<Account>, nextId: nat)
    requires AccountIdsFresh(accounts, nextId)
    ensures var lk := LookupAdvanceAccount(accounts, nextId); AccountIdsFresh(lk.accounts, lk.nextId)
  {
    var lk := LookupAdvanceAccount(accounts, nextId);
    if FindAccountByCode(accounts, AdvanceAccountCode).None? {
      assert forall i :: 0 <= i < |accounts| ==> lk.accounts[i] == accounts[i];
      assert lk.accounts[|accounts|].id == nextId;
    }
  }

  /** Storing an entry under the next free id, and then advancing it, keeps the entry ids fresh. */
  lemma AppendKeepsMoveIdsFresh(moves: seq<Move>, nextId: nat, m: Move)
    requires MoveIdsFresh(moves, nextId) && m.id == nextId
    ensures MoveIdsFresh(moves + [m], nextId + 1)
  {
    assert forall i :: 0 <= i < |moves| ==> (moves + [m])[i] == moves[i];
  }

  /** Entry creation, as confirmation, keeps every id fresh. */
  lemma CreateEntryKeepsIdsFresh(o: AdvanceOrder, b: Books, today: int)
    requires FreshIds(b)
    ensures CreateEntry(o, b, today).Ok? ==> FreshIds(CreateEntry(o, b, today).value.books)
    ensures Confirm(o, b, today).Ok? ==> FreshIds(Confirm(o, b, today).value.books)
  {
    var r := CreateEntry(o, b, today);
    if 0.0 < o.advancePayment && r.Ok? {
      LookupKeepsAccountIdsFresh(b.accounts, b.nextAccountId);
      AppendKeepsMoveIdsFresh(b.moves, b.nextMoveId, r.value.books.moves[|b.moves|]);
    }
  }

  /**
   * The order is linked to its entry: state recorded only with a linked entry, and a
   * linked entry is a posted, balanced entry in the books, whose ids are fresh.
   */
  ghost predicate WellLinked(o: AdvanceOrder, b: Books) {
    && FreshIds(b)
    && (o.advanceState == Recorded ==> o.journalEntry.Some?)
    && (o.journalEntry.Some? ==>
          exists k :: 0 <= k < |b.moves| && b.moves[k].id == o.journalEntry.value
                      && b.moves[k].posted && Balanced(b.moves[k]))
  }

  /** A new order has no advance, no entry, and is well linked. */
  lemma NewOrderWellLinked(name: string, partnerId: nat, receivable: Option<nat>, amountTotal: real, b: Books)
    requires FreshIds(b)
    ensures WellLinked(AdvanceOrder(name, partnerId, receivable, amountTotal, 0.0, NoAdvance, None), b)
  {
  }

  /** Every step keeps the order well linked to the books. */
  lemma {:induction false} StepsPreserveWellLinked(o: AdvanceOrder, b: Books, advance: real, today: int)
    requires WellLinked(o, b)
    ensures WellLinked(o.(advanceState := OnchangeState(o.advancePayment, o.advanceState)), b)
    ensures WriteAdvance(o, advance).Ok? ==> WellLinked(WriteAdvance(o, advance).value, b)
    ensures CreateEntry(o, b, today).Ok? ==>
      var p := CreateEntry(o, b, today).value; WellLinked(p.order, p.books)
    ensures Confirm(o, b, today).Ok? ==>
      var p := Confirm(o, b, today).value; WellLinked(p.order, p.books)
  {
    var r := CreateEntry(o, b, today);
    CreateEntryKeepsIdsFresh(o, b, today);
    if 0.0 < o.advancePayment && r.Ok? {
      var p := r.value;
      var k := |b.moves|;
      var m := p.books.moves[k];
      AdvanceLinesBalance(o.name, o.partnerId, o.receivableAccount.value,
                          LookupAdvanceAccount(b.accounts, b.nextAccountId).account.id, o.advancePayment);
      assert m.id == p.order.journalEntry.value && m.posted && Balanced(m);
    }
    if o.journalEntry.Some? && r.Ok? {
      var p := r.value;
      var k :| 0 <= k < |b.moves| && b.moves[k].id == o.journalEntry.value && b.moves[k].posted && Balanced(b.moves[k]);
      assert p.books.moves[..|b.moves|] == b.moves;
      assert p.books.moves[k] == b.moves[k];
    }
  }

  /** With fresh ids the linked entry is the only entry with its id, so it is posted and balanced. */
  lemma LinkedEntryIsUnique(o: AdvanceOrder, b: Books, k: nat)
    requires WellLinked(o, b) && o.journalEntry.Some?
    requires k < |b.moves| && b.moves[k].id == o.journalEntry.value
    ensures b.moves[k].posted && Balanced(b.moves[k])
    ensures forall j :: 0 <= j < |b.moves| && b.moves[j].id == o.journalEntry.value ==> j == k
  {
    var i :| 0 <= i < |b.moves| && b.moves[i].id == o.journalEntry.value && b.moves[i].posted && Balanced(b.moves[i]);
    assert i == k;
  }

  // ---------------------------------------------------------------------------
  // The records the source changes in place
  // ---------------------------------------------------------------------------

  /** The accounting models (`account.account`, `account.journal`, `account.move`). */
  class Ledger {
    var accounts: seq<Account>
    var journals: seq<Journal>
    var moves: seq<Move>
    var nextAccountId: nat
    var nextMoveId: nat

    function Contents(): Books
      reads this
    {
      Books(accounts, journals, moves, nextAccountId, nextMoveId)
    }

    /** The store's ids are distinct and below its counters. */
    constructor (accounts: seq<Account>, journals: seq<Journal>, moves: seq<Move>, nextAccountId: nat, nextMoveId: nat)
      requires FreshIds(Books(accounts, journals, moves, nextAccountId, nextMoveId))
      ensures Contents() == Books(accounts, journals, moves, nextAccountId, nextMoveId)
      ensures FreshIds(Contents())
    {
      this.accounts := accounts;
      this.journals := journals;
      this.moves := moves;
      this.nextAccountId := nextAccountId;
      this.nextMoveId := nextMoveId;
    }

    /** `_get_advance_payment_account`: search by code 2010, create the account when the search is empty. */
    method GetAdvancePaymentAccount() returns (a: Account)
      modifies this
      ensures var lk := LookupAdvanceAccount(old(accounts), old(nextAccountId));
        a == lk.account && Contents() == old(Contents()).(accounts := lk.accounts, nextAccountId := lk.nextId)
      ensures old(FreshIds(Contents())) ==> FreshIds(Contents())
    {
      if FreshIds(Contents()) {
        LookupKeepsAccountIdsFresh(accounts, nextAccountId);
      }
      var found := FindAccountByCode(accounts, AdvanceAccountCode);
      if found.Some? {
        a := accounts[found.value];
      } else {
        a := Account(nextAccountId, AdvanceAccountName, AdvanceAccountCode, LiabilityCurrent);
        accounts := accounts + [a];
        nextAccountId := nextAccountId + 1;
      }
    }

    /** `account.move.create`: store a draft entry under the next free id. */
    method CreateMove(m: Move) returns (id: nat)
      modifies this
      ensures id == old(nextMoveId)
      ensures Contents() == old(Contents()).(moves := old(moves) + [m.(id := id, posted := false)], nextMoveId := id + 1)
      ensures old(FreshIds(Contents())) ==> FreshIds(Contents())
    {
      if FreshIds(Contents()) {
        AppendKeepsMoveIdsFresh(moves, nextMoveId, m.(id := nextMoveId, posted := false));
      }
      id := nextMoveId;
      moves := moves + [m.(id := id, posted := false)];
      nextMoveId := nextMoveId + 1;
    }

    /** `action_post` on the entry at position `k`. */
    method ActionPost(k: nat)
      requires k < |moves|
      modifies this
      ensures Contents() == old(Contents()).(moves := old(moves)[k := old(moves)[k].(posted := true)])
      ensures old(FreshIds(Contents())) ==> FreshIds(Contents())
    {
      moves := moves[k := moves[k].(posted := true)];
    }
  }

  /** The advance-payment fields of one `sale.order`. */
  class SaleOrder {
    var name: string
    var partnerId: nat
    var receivableAccount: Option<nat>
    var amountTotal: real
    var advancePayment: real
    var advanceState: AdvanceState
    var journalEntry: Option<nat>

    function Snapshot(): AdvanceOrder
      reads this
    {
      AdvanceOrder(name, partnerId, receivableAccount, amountTotal, advancePayment, advanceState, journalEntry)
    }

    /** A new order: no advance, state none, no entry. */
    constructor (name: string, partnerId: nat, receivableAccount: Option<nat>, amountTotal: real)
      ensures Snapshot() == AdvanceOrder(name, partnerId, receivableAccount, amountTotal, 0.0, NoAdvance, None)
    {
      this.name := name;
      this.partnerId := partnerId;
      this.receivableAccount := receivableAccount;
      this.amountTotal := amountTotal;
      advancePayment := 0.0;
      advanceState := NoAdvance;
      journalEntry := None;
    }

    /** `_onchange_advance_payment`. */
    method OnchangeAdvancePayment()
      modifies this
      ensures Snapshot() == old(Snapshot()).(advanceState := OnchangeState(old(advancePayment), old(advanceState)))
    {
      if advancePayment > 0.0 {
        if advanceState == NoAdvance {
          advanceState := Pending;
        }
      } else {
        advanceState := NoAdvance;
      }
    }

    /** A write of `advance_payment` followed by `_check_advance_payment`; a rejected write is rolled back. */
    method WriteAdvancePayment(advance: real) returns (r: Outcome<AdvanceError>)
      modifies this
      ensures match WriteAdvance(old(Snapshot()), advance)
        case Ok(o) => r == Pass && Snapshot() == o
        case Err(e) => r == Fail(e) && Snapshot() == old(Snapshot())
    {
      var saved := advancePayment;
      advancePayment := advance;
      if advancePayment < 0.0 {
        advancePayment := saved;
        return Fail(NegativeAdvance);
      }
      if advancePayment > amountTotal {
        advancePayment := saved;
        return Fail(AdvanceExceedsTotal);
      }
      r := Pass;
    }

    /** `_create_advance_payment_entry`, with the transaction rolled back on an error. */
    method CreateAdvancePaymentEntry(ledger: Ledger, today: int) returns (r: Outcome<AdvanceError>)
      modifies this, ledger
      ensures match CreateEntry(old(Snapshot()), old(ledger.Contents()), today)
        case Ok(p) => r == Pass && Snapshot() == p.order && ledger.Contents() == p.books
        case Err(e) => r == Fail(e) && Snapshot() == old(Snapshot()) && ledger.Contents() == old(ledger.Contents())
    {
      if advancePayment <= 0.0 {
        return Pass;
      }
      if receivableAccount.None? {
        return Fail(NoReceivableAccount);
      }
      var receivable := receivableAccount.value;
      // The journal is resolved before anything is written: an error there rolls back the account creation.
      var journal := ChooseJournal(ledger.journals);
      if journal.Err? {
        return Fail(journal.error);
      }
      var advanceAccount := ledger.GetAdvancePaymentAccount();
      var k := |ledger.moves|;
      var id := ledger.CreateMove(Move(0, "entry", journal.value.id, partnerId, today, "Advance Payment for " + name,
                                       AdvanceLines(name, partnerId, receivable, advanceAccount.id, advancePayment),
                                       false));
      journalEntry := Some(id);
      advanceState := Recorded;
      ledger.ActionPost(k);
      r := Pass;
    }

    /** The advance-payment part of `action_confirm`: post the entry unless there is no advance or one is linked. */
    method ActionConfirm(ledger: Ledger, today: int) returns (r: Outcome<AdvanceError>)
      modifies this, ledger
      ensures match Confirm(old(Snapshot()), old(ledger.Contents()), today)
        case Ok(p) => r == Pass && Snapshot() == p.order && ledger.Contents() == p.books
        case Err(e) => r == Fail(e) && Snapshot() == old(Snapshot()) && ledger.Contents() == old(ledger.Contents())
    {
      if advancePayment > 0.0 && journalEntry.None? {
        r := CreateAdvancePaymentEntry(ledger, today);
      } else {
        r := Pass;
      }
    }
  }
}

/**
 * Applying the best discount rule to a sales order: every earlier discount line is
 * removed, the total of the remaining lines is computed, and when a rule gives a
 * positive discount on that total one discount line carrying minus the discount is
 * added, on a "DISCOUNT" product that is created the first time it is needed.
 *
 * The pure functions `DiscountToApply` and `Recomputed` say what one application
 * produces; the lemmas below them state its properties (other lines untouched, at
 * most one discount line, the line totals, idempotence). The classes hold the
 * order's and the product catalogue's fields, which the source changes in place.
 */
module DiscountOrders {
  import opened Wrappers
  import opened DiscountRules

  datatype SaleState = Draft | Sent | Sale | Done | Cancel

  /** A `sale.order.line`; `subtotal` is the untaxed line amount the store computes. */
  datatype OrderLine = OrderLine(
    productId: nat,
    name: string,
    quantity: real,
    priceUnit: real,
    subtotal: real,
    isDiscountLine: bool)

  // ---------------------------------------------------------------------------
  // Lines
  // ---------------------------------------------------------------------------

  /** The lines that are not discount lines, in their order. */
  function NonDiscountLines(lines: seq<OrderLine>): (r: seq<OrderLine>)
    ensures |r| <= |lines|
    ensures forall k :: 0 <= k < |r| ==> !r[k].isDiscountLine
    decreases |lines|
  {
    if |lines| == 0 then []
    else
      var init := lines[..|lines| - 1];
      var last := lines[|lines| - 1];
      if last.isDiscountLine then NonDiscountLines(init) else NonDiscountLines(init) + [last]
  }

  function SumSubtotals(lines: seq<OrderLine>): real
    decreases |lines|
  {
    if |lines| == 0 then 0.0 else SumSubtotals(lines[..|lines| - 1]) + lines[|lines| - 1].subtotal
  }

  function CountDiscountLines(lines: seq<OrderLine>): nat
    decreases |lines|
  {
    if |lines| == 0 then 0
    else CountDiscountLines(lines[..|lines| - 1]) + (if lines[|lines| - 1].isDiscountLine then 1 else 0)
  }

  /** The order total the discount is computed on: the subtotals of the lines that are not discount lines. */
  function OrderTotal(lines: seq<OrderLine>): real {
    SumSubtotals(NonDiscountLines(lines))
  }

  lemma {:induction false} SumAppend(a: seq<OrderLine>, b: seq<OrderLine>)
    ensures SumSubtotals(a + b) == SumSubtotals(a) + SumSubtotals(b)
    decreases |b|
  {
    if |b| > 0 {
      assert (a + b)[..|a + b| - 1] == a + b[..|b| - 1];
      SumAppend(a, b[..|b| - 1]);
    } else {
      assert a + b == a;
    }
  }

  lemma {:induction false} CountAppend(a: seq<OrderLine>, b: seq<OrderLine>)
    ensures CountDiscountLines(a + b) == CountDiscountLines(a) + CountDiscountLines(b)
    decreases |b|
  {
    if |b| > 0 {
      assert (a + b)[..|a + b| - 1] == a + b[..|b| - 1];
      CountAppend(a, b[..|b| - 1]);
    } else {
      assert a + b == a;
    }
  }

  /** Removing the discount lines leaves none. */
  lemma {:induction false} NonDiscountLinesHaveNoDiscountLine(lines: seq<OrderLine>)
    ensures CountDiscountLines(NonDiscountLines(lines)) == 0
    decreases |lines|
  {
    if |lines| > 0 {
      var init := lines[..|lines| - 1];
      NonDiscountLinesHaveNoDiscountLine(init);
      if !lines[|lines| - 1].isDiscountLine {
        CountAppend(NonDiscountLines(init), [lines[|lines| - 1]]);
        assert CountDiscountLines([lines[|lines| - 1]]) == 0 by {
          assert [lines[|lines| - 1]][..0] == [];
        }
      }
    }
  }

  /** Removing the discount lines keeps exactly the other lines: a line survives iff it is not a discount line. */
  lemma {:induction false} NonDiscountLinesMeans(lines: seq<OrderLine>, l: OrderLine)
    ensures l in NonDiscountLines(lines) <==> l in lines && !l.isDiscountLine
    decreases |lines|
  {
    if |lines| > 0 {
      var init := lines[..|lines| - 1];
      NonDiscountLinesMeans(init, l);
      assert lines == init + [lines[|lines| - 1]];
    }
  }

  lemma {:induction false} NonDiscountLinesAppend(a: seq<OrderLine>, b: seq<OrderLine>)
    ensures NonDiscountLines(a + b) == NonDiscountLines(a) + NonDiscountLines(b)
    decreases |b|
  {
    if |b| > 0 {
      assert (a + b)[..|a + b| - 1] == a + b[..|b| - 1];
      NonDiscountLinesAppend(a, b[..|b| - 1]);
    } else {
      assert a + b == a;
    }
  }

  /** Removing discount lines twice removes nothing more. */
  lemma {:induction false} NonDiscountLinesIdempotent(lines: seq<OrderLine>)
    ensures NonDiscountLines(NonDiscountLines(lines)) == NonDiscountLines(lines)
    decreases |lines|
  {
    if |lines| > 0 {
      var init := lines[..|lines| - 1];
      var last := lines[|lines| - 1];
      NonDiscountLinesIdempotent(init);
      if !last.isDiscountLine {
        NonDiscountLinesAppend(NonDiscountLines(init), [last]);
        assert [last][..0] == [];
      }
    }
  }

  // ---------------------------------------------------------------------------
  // One application of the rules
  // ---------------------------------------------------------------------------

  /**
   * The rule and discount one application applies, if any: none when the total of
   * the non-discount lines is not positive, when no rule applies, or when the best
   * rule's discount is not positive. Rules are matched without a customer group,
   * on the order date or, failing that, today.
   */
  function DiscountToApply(lines: seq<OrderLine>, rules: seq<DiscountRule>, dateOrder: Option<int>, today: int)
    : (a: Option<Candidate>)
    ensures a.Some? ==> 0.0 < OrderTotal(lines) && 0.0 < a.value.discount
  {
    var total := OrderTotal(lines);
    if total <= 0.0 then None
    else
      var best := FindApplicableRule(rules, total, None, Some(dateOrder.GetOr(today)), today);
      if best.None? then None
      else
        var discountAmount := CalculateDiscount(best.value, total);
        if discountAmount > 0.0 then Some(Candidate(best.value, discountAmount)) else None
  }

  /**
   * The discount applied is the chosen rule's discount on the order total, from an
   * applicable rule whose discount is at least that of every applicable rule; and
   * when none is applied, either the total is not positive, no rule applies, or
   * the best rule gives no positive discount.
   */
  lemma DiscountToApplyMeans(lines: seq<OrderLine>, rules: seq<DiscountRule>, dateOrder: Option<int>, today: int)
    ensures var a := DiscountToApply(lines, rules, dateOrder, today);
      var total := OrderTotal(lines);
      var date := Some(dateOrder.GetOr(today));
      && (a.Some? ==>
            && a.value.rule in rules
            && IsApplicable(a.value.rule, total, None, date, today)
            && a.value.discount == CalculateDiscount(a.value.rule, total)
            && forall i :: 0 <= i < |rules| && IsApplicable(rules[i], total, None, date, today) ==>
                 CalculateDiscount(rules[i], total) <= a.value.discount)
      && (a.None? <==>
            || total <= 0.0
            || FindApplicableRule(rules, total, None, date, today).None?
            || CalculateDiscount(FindApplicableRule(rules, total, None, date, today).value, total) <= 0.0)
      && (FindApplicableRule(rules, total, None, date, today).None? <==>
            forall i :: 0 <= i < |rules| ==> !IsApplicable(rules[i], total, None, date, today))
  {
    var total := OrderTotal(lines);
    var date := Some(dateOrder.GetOr(today));
    FindNoneIffNoneApplicable(rules, total, None, date, today);
    if FindApplicableRule(rules, total, None, date, today).Some? {
      FoundRuleIsBest(rules, total, None, date, today);
    }
  }

  /**
   * The computation inside `_apply_discount_rules`: sum the non-discount lines, stop
   * unless the sum is positive, look up the best rule, and keep its discount only
   * when that is positive.
   */
  method ComputeDiscount(lines: seq<OrderLine>, rules: seq<DiscountRule>, dateOrder: Option<int>, today: int)
    returns (applied: Option<Candidate>)
    ensures applied == DiscountToApply(lines, rules, dateOrder, today)
  {
    var orderTotal := SumSubtotals(NonDiscountLines(lines));
    if orderTotal <= 0.0 {
      return None;
    }
    var best := FindApplicableRules(rules, orderTotal, None, Some(dateOrder.GetOr(today)), today);
    if best.None? {
      return None;
    }
    var discountAmount := CalculateDiscount(best.value, orderTotal);
    if discountAmount > 0.0 {
      applied := Some(Candidate(best.value, discountAmount));
    } else {
      applied := None;
    }
  }

  /** The synthetic line for an applied discount: quantity 1 at minus the discount. */
  function DiscountLine(c: Candidate, productId: nat): OrderLine {
    OrderLine(productId, "Discount: " + c.rule.name, 1.0, -c.discount, -c.discount, true)
  }

  /** The lines after an application: the non-discount lines, then the discount line if one is applied. */
  function Recomputed(lines: seq<OrderLine>, applied: Option<Candidate>, productId: nat): (r: seq<OrderLine>)
    ensures |r| == |NonDiscountLines(lines)| + (if applied.Some? then 1 else 0)
    ensures applied.Some? ==>
      && r[|r| - 1].isDiscountLine && r[|r| - 1].productId == productId
      && r[|r| - 1].quantity == 1.0 && r[|r| - 1].priceUnit == -applied.value.discount
  {
    NonDiscountLines(lines) + (if applied.Some? then [DiscountLine(applied.value, productId)] else [])
  }

  /** Non-discount lines are never removed, reordered or changed. */
  lemma RecomputeKeepsOtherLines(lines: seq<OrderLine>, applied: Option<Candidate>, productId: nat)
    ensures NonDiscountLines(Recomputed(lines, applied, productId)) == NonDiscountLines(lines)
  {
    var tail := if applied.Some? then [DiscountLine(applied.value, productId)] else [];
    NonDiscountLinesAppend(NonDiscountLines(lines), tail);
    NonDiscountLinesIdempotent(lines);
    if applied.Some? {
      assert tail[..0] == [];
    }
  }

  /** Afterwards there is exactly one discount line when a discount is applied and none otherwise. */
  lemma AtMostOneDiscountLine(lines: seq<OrderLine>, applied: Option<Candidate>, productId: nat)
    ensures CountDiscountLines(Recomputed(lines, applied, productId)) == if applied.Some? then 1 else 0
  {
    var tail := if applied.Some? then [DiscountLine(applied.value, productId)] else [];
    CountAppend(NonDiscountLines(lines), tail);
    NonDiscountLinesHaveNoDiscountLine(lines);
    if applied.Some? {
      assert tail[..0] == [];
    }
  }

  /** The order total ignores discount lines, so it is the same after an application. */
  lemma TotalIgnoresDiscountLines(lines: seq<OrderLine>, applied: Option<Candidate>, productId: nat)
    ensures OrderTotal(Recomputed(lines, applied, productId)) == OrderTotal(lines)
  {
    RecomputeKeepsOtherLines(lines, applied, productId);
  }

  /** All line subtotals together are the non-discount total minus the applied discount. */
  lemma SubtotalsAfterDiscount(lines: seq<OrderLine>, c: Candidate, productId: nat)
    ensures SumSubtotals(Recomputed(lines, Some(c), productId)) == OrderTotal(lines) - c.discount
  {
    var tail := [DiscountLine(c, productId)];
    SumAppend(NonDiscountLines(lines), tail);
    assert tail[..0] == [];
  }

  /**
   * Applying twice in a row with no change to the lines gives the same lines and the
   * same applied discount: the second application sees the same total, so the
   * discount is not compounded.
   */
  lemma ApplyIsIdempotent(lines: seq<OrderLine>, rules: seq<DiscountRule>, dateOrder: Option<int>, today: int, productId: nat)
    ensures var a := DiscountToApply(lines, rules, dateOrder, today);
      var once := Recomputed(lines, a, productId);
      DiscountToApply(once, rules, dateOrder, today) == a && Recomputed(once, a, productId) == once
  {
    var a := DiscountToApply(lines, rules, dateOrder, today);
    var once := Recomputed(lines, a, productId);
    TotalIgnoresDiscountLines(lines, a, productId);
    RecomputeKeepsOtherLines(lines, a, productId);
  }

  /** With rules that passed their constraints, the applied discount never exceeds the order total. */
  lemma DiscountAtMostTotal(lines: seq<OrderLine>, rules: seq<DiscountRule>, dateOrder: Option<int>, today: int)
    requires forall i :: 0 <= i < |rules| ==> ValidRule(rules[i])
    requires DiscountToApply(lines, rules, dateOrder, today).Some?
    ensures DiscountToApply(lines, rules, dateOrder, today).value.discount <= OrderTotal(lines)
  {
    var c := DiscountToApply(lines, rules, dateOrder, today).value;
    DiscountToApplyMeans(lines, rules, dateOrder, today);
    ValidRuleMeans(c.rule);
    DiscountWithinAmount(c.rule, OrderTotal(lines));
  }

  // ---------------------------------------------------------------------------
  // The discount product
  // ---------------------------------------------------------------------------

  datatype Product = Product(id: nat, name: string, defaultCode: string, companyId: Option<nat>)

  const DiscountCode: string := "DISCOUNT"

  /** A product the search for the discount product accepts: code DISCOUNT, of the company or of none. */
  predicate IsDiscountProductFor(p: Product, companyId: nat) {
    p.defaultCode == DiscountCode && (p.companyId == Some(companyId) || p.companyId.None?)
  }

  function FindDiscountProduct(products: seq<Product>, companyId: nat): (r: Option<nat>)
    ensures r.Some? ==> r.value < |products| && IsDiscountProductFor(products[r.value], companyId)
    ensures r.Some? ==> forall j :: 0 <= j < r.value ==> !IsDiscountProductFor(products[j], companyId)
    ensures r.None? <==> forall j :: 0 <= j < |products| ==> !IsDiscountProductFor(products[j], companyId)
    decreases |products|
  {
    if |products| == 0 then None
    else if IsDiscountProductFor(products[0], companyId) then Some(0)
    else match FindDiscountProduct(products[1..], companyId)
      case None => None
      case Some(i) => Some(i + 1)
  }

  /** The product `_get_discount_product` creates: a service named Discount, for the order's company. */
  function NewDiscountProduct(id: nat, companyId: nat): Product {
    Product(id, "Discount", DiscountCode, Some(companyId))
  }

  function ProductsAfterLookup(products: seq<Product>, companyId: nat, nextId: nat): seq<Product> {
    if FindDiscountProduct(products, companyId).Some? then products else products + [NewDiscountProduct(nextId, companyId)]
  }

  /** The id of the discount product a lookup returns. */
  function DiscountProductId(products: seq<Product>, companyId: nat): Option<nat> {
    match FindDiscountProduct(products, companyId)
    case Some(i) => Some(products[i].id)
    case None => None
  }

  /** After one lookup a discount product exists, and a second lookup creates nothing. */
  lemma DiscountProductIsGetOrCreate(products: seq<Product>, companyId: nat, nextId: nat)
    ensures DiscountProductId(ProductsAfterLookup(products, companyId, nextId), companyId).Some?
    ensures ProductsAfterLookup(ProductsAfterLookup(products, companyId, nextId), companyId, nextId + 1)
         == ProductsAfterLookup(products, companyId, nextId)
  {
    var after := ProductsAfterLookup(products, companyId, nextId);
    if FindDiscountProduct(products, companyId).None? {
      assert IsDiscountProductFor(after[|products|], companyId);
    }
  }

  /** The store's product ids: distinct, and all below the next free id. */
  predicate ProductIdsFresh(products: seq<Product>, nextId: nat) {
    && (forall i :: 0 <= i < |products| ==> products[i].id < nextId)
    && (forall i, j :: 0 <= i < j < |products| ==> products[i].id != products[j].id)
  }

  /** A lookup keeps the product ids fresh, the counter advancing exactly when a product is created. */
  lemma LookupKeepsProductIdsFresh(products: seq<Product>, companyId: nat, nextId: nat)
    requires ProductIdsFresh(products, nextId)
    ensures ProductIdsFresh(ProductsAfterLookup(products, companyId, nextId),
                            if FindDiscountProduct(products, companyId).Some? then nextId else nextId + 1)
  {
    var after := ProductsAfterLookup(products, companyId, nextId);
    if FindDiscountProduct(products, companyId).None? {
      assert forall i :: 0 <= i < |products| ==> after[i] == products[i];
      assert after[|products|].id == nextId;
    }
  }

  /** With fresh ids the discount product a lookup names is the only product with its id. */
  lemma DiscountProductIdIsUnique(products: seq<Product>, companyId: nat, nextId: nat, k: nat)
    requires ProductIdsFresh(products, nextId)
    requires k < |products| && DiscountProductId(products, companyId) == Some(products[k].id)
    ensures k == FindDiscountProduct(products, companyId).value
  {
    var i := FindDiscountProduct(products, companyId).value;
    assert products[i].id == products[k].id;
  }

  /** The `product.product` records. */
  class ProductCatalog {
    var products: seq<Product>
    var nextId: nat

    predicate Valid()
      reads this
    {
      ProductIdsFresh(products, nextId)
    }

    /** The store's ids are distinct and below its counter. */
    constructor (products: seq<Product>, nextId: nat)
      requires ProductIdsFresh(products, nextId)
      ensures this.products == products && this.nextId == nextId
      ensures Valid()
    {
      this.products := products;
      this.nextId := nextId;
    }

    /** `_get_discount_product`: find the discount product for the company, creating it if there is none. */
    method GetDiscountProduct(companyId: nat) returns (p: Product)
      modifies this
      ensures IsDiscountProductFor(p, companyId)
      ensures products == ProductsAfterLookup(old(products), companyId, old(nextId))
      ensures nextId == if FindDiscountProduct(old(products), companyId).Some? then old(nextId) else old(nextId) + 1
      ensures DiscountProductId(products, companyId) == Some(p.id)
      ensures old(Valid()) ==> Valid()
    {
      if Valid() {
        LookupKeepsProductIdsFresh(products, companyId, nextId);
      }
      var found := FindDiscountProduct(products, companyId);
      if found.Some? {
        p := products[found.value];
      } else {
        p := NewDiscountProduct(nextId, companyId);
        products := products + [p];
        nextId := nextId + 1;
        assert IsDiscountProductFor(products[|products| - 1], companyId);
        assert forall j :: 0 <= j < |products| - 1 ==> products[j] == old(products)[j];
      }
    }
  }

  // ---------------------------------------------------------------------------
  // The sales order
  // ---------------------------------------------------------------------------

  /** The values a `write` may carry: the new line list and the new state, each optional. */
  datatype OrderVals = OrderVals(orderLine: Option<seq<OrderLine>>, state: Option<SaleState>)

  /** The fields of `sale.order` that the discount engine reads and writes. */
  class SaleOrder {
    var state: SaleState
    var companyId: nat
    var dateOrder: Option<int>
    var lines: seq<OrderLine>
    var appliedDiscountRuleId: Option<nat>
    var appliedDiscountAmount: real

    /**
     * The state after one application to the lines `before`, with the catalogue
     * `productsBefore`/`nextIdBefore` as it was: the discount lines are gone, the
     * tracking fields reset, and then the discount of `DiscountToApply` recorded.
     */
    ghost predicate AppliedFrom(before: seq<OrderLine>, productsBefore: seq<Product>, nextIdBefore: nat,
                                rules: seq<DiscountRule>, today: int, catalog: ProductCatalog)
      reads this, catalog
    {
      match DiscountToApply(before, rules, dateOrder, today)
      case None =>
        && lines == NonDiscountLines(before)
        && appliedDiscountRuleId.None? && appliedDiscountAmount == 0.0
        && catalog.products == productsBefore && catalog.nextId == nextIdBefore
      case Some(c) =>
        && catalog.products == ProductsAfterLookup(productsBefore, companyId, nextIdBefore)
        && catalog.nextId == (if FindDiscountProduct(productsBefore, companyId).Some? then nextIdBefore else nextIdBefore + 1)
        && DiscountProductId(catalog.products, companyId).Some?
        && lines == Recomputed(before, Some(c), DiscountProductId(catalog.products, companyId).value)
        && appliedDiscountRuleId == Some(c.rule.id) && appliedDiscountAmount == c.discount
    }

    /** `create`: the order is stored, then the rules are applied to it. */
    constructor Create(state: SaleState, companyId: nat, dateOrder: Option<int>, lines: seq<OrderLine>,
                       rules: seq<DiscountRule>, today: int, catalog: ProductCatalog)
      modifies catalog
      ensures this.state == state && this.companyId == companyId && this.dateOrder == dateOrder
      ensures state !in {Draft, Sent} ==>
        this.lines == lines && appliedDiscountRuleId.None? && appliedDiscountAmount == 0.0
        && catalog.products == old(catalog.products) && catalog.nextId == old(catalog.nextId)
      ensures state in {Draft, Sent} ==> AppliedFrom(lines, old(catalog.products), old(catalog.nextId), rules, today, catalog)
    {
      this.state := state;
      this.companyId := companyId;
      this.dateOrder := dateOrder;
      this.lines := lines;
      appliedDiscountRuleId := None;
      appliedDiscountAmount := 0.0;
      new;
      ApplyDiscountRules(rules, today, catalog);
    }

    /** `_apply_discount_rules`: a no-op outside draft/sent, else a full recomputation of the discount line. */
    method ApplyDiscountRules(rules: seq<DiscountRule>, today: int, catalog: ProductCatalog)
      modifies this, catalog
      ensures state == old(state) && companyId == old(companyId) && dateOrder == old(dateOrder)
      ensures old(state) !in {Draft, Sent} ==>
        lines == old(lines) && appliedDiscountRuleId == old(appliedDiscountRuleId)
        && appliedDiscountAmount == old(appliedDiscountAmount)
        && catalog.products == old(catalog.products) && catalog.nextId == old(catalog.nextId)
      ensures old(state) in {Draft, Sent} ==>
        AppliedFrom(old(lines), old(catalog.products), old(catalog.nextId), rules, today, catalog)
    {
      if state !in {Draft, Sent} {
        return;
      }
      ghost var before := lines;
      // Remove the existing discount lines and reset the tracking fields.
      lines := NonDiscountLines(lines);
      appliedDiscountRuleId := None;
      appliedDiscountAmount := 0.0;
      NonDiscountLinesIdempotent(before);
      var applied := ComputeDiscount(lines, rules, dateOrder, today);
      assert applied == DiscountToApply(before, rules, dateOrder, today);
      if applied.Some? {
        var product := catalog.GetDiscountProduct(companyId);
        lines := lines + [DiscountLine(applied.value, product.id)];
        assert lines == Recomputed(before, applied, product.id);
        appliedDiscountRuleId := Some(applied.value.rule.id);
        appliedDiscountAmount := applied.value.discount;
      }
    }

    /** `write`: store the values, then re-apply the rules only if the lines were written and the order is in draft/sent. */
    method Write(vals: OrderVals, rules: seq<DiscountRule>, today: int, catalog: ProductCatalog) returns (ok: bool)
      modifies this, catalog
      ensures ok
      ensures state == vals.state.GetOr(old(state)) && companyId == old(companyId) && dateOrder == old(dateOrder)
      ensures vals.orderLine.None? || state !in {Draft, Sent} ==>
        lines == vals.orderLine.GetOr(old(lines))
        && appliedDiscountRuleId == old(appliedDiscountRuleId) && appliedDiscountAmount == old(appliedDiscountAmount)
        && catalog.products == old(catalog.products) && catalog.nextId == old(catalog.nextId)
      ensures vals.orderLine.Some? && state in {Draft, Sent} ==>
        AppliedFrom(vals.orderLine.value, old(catalog.products), old(catalog.nextId), rules, today, catalog)
    {
      lines := vals.orderLine.GetOr(lines);
      state := vals.state.GetOr(state);
      ok := true;
      if vals.orderLine.Some? && state in {Draft, Sent} {
        ApplyDiscountRules(rules, today, catalog);
      }
    }

    /** `action_reapply_discount`: the manual button, the same recomputation. */
    method ActionReapplyDiscount(rules: seq<DiscountRule>, today: int, catalog: ProductCatalog)
      modifies this, catalog
      ensures state == old(state) && companyId == old(companyId) && dateOrder == old(dateOrder)
      ensures old(state) !in {Draft, Sent} ==>
        lines == old(lines) && appliedDiscountRuleId == old(appliedDiscountRuleId)
        && appliedDiscountAmount == old(appliedDiscountAmount)
        && catalog.products == old(catalog.products) && catalog.nextId == old(catalog.nextId)
      ensures old(state) in {Draft, Sent} ==>
        AppliedFrom(old(lines), old(catalog.products), old(catalog.nextId), rules, today, catalog)
    {
      ApplyDiscountRules(rules, today, catalog);
    }
  }

  /**
   * What one application leaves on the order: the other lines as they were, one
   * discount line exactly when a discount applies, the applied rule and amount
   * recorded (or reset), and at most one product id used.
   */
  lemma AppliedFromMeans(o: SaleOrder, before: seq<OrderLine>, productsBefore: seq<Product>, nextIdBefore: nat,
                         rules: seq<DiscountRule>, today: int, catalog: ProductCatalog)
    requires o.AppliedFrom(before, productsBefore, nextIdBefore, rules, today, catalog)
    ensures NonDiscountLines(o.lines) == NonDiscountLines(before)
    ensures CountDiscountLines(o.lines) == if DiscountToApply(before, rules, o.dateOrder, today).Some? then 1 else 0
    ensures DiscountToApply(before, rules, o.dateOrder, today).None? ==>
      o.appliedDiscountRuleId.None? && o.appliedDiscountAmount == 0.0 && catalog.nextId == nextIdBefore
    ensures DiscountToApply(before, rules, o.dateOrder, today).Some? ==>
      && o.appliedDiscountRuleId == Some(DiscountToApply(before, rules, o.dateOrder, today).value.rule.id)
      && 0.0 < o.appliedDiscountAmount
      && o.appliedDiscountAmount == DiscountToApply(before, rules, o.dateOrder, today).value.discount
    ensures nextIdBefore <= catalog.nextId <= nextIdBefore + 1
  {
    var a := DiscountToApply(before, rules, o.dateOrder, today);
    if a.Some? {
      var pid := DiscountProductId(catalog.products, o.companyId).value;
      RecomputeKeepsOtherLines(before, a, pid);
      AtMostOneDiscountLine(before, a, pid);
    } else {
      NonDiscountLinesIdempotent(before);
      NonDiscountLinesHaveNoDiscountLine(before);
    }
  }
}

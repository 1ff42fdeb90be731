/**
 * The sales profitability report: the wizard's filters select sales orders (a
 * date range, the company, optionally some customers, a state or "not
 * cancelled"), optionally keep only the lines of some product categories, and
 * then report per order and in total the revenue (line subtotals), the cost
 * (quantity times the product's standard price), the margin and the margin
 * percent; the spreadsheet export lays the report out row by row.
 *
 * `ReportOf` and `LinesData` say what the report holds; the methods
 * `GetReportData`, `GetOrderLinesData` and `GenerateExcelReport` are the
 * source's accumulating loops, proved against them or against the layout.
 */
module Profitability {
  import opened Wrappers

  datatype OrderState = Draft | Sent | Sale | Done | Cancel

  /** A `sale.order.line` with the product fields the report reads. */
  datatype SaleLine = SaleLine(
    productName: string,
    categId: nat,
    categName: string,
    quantity: real,       // product_uom_qty
    priceUnit: real,
    subtotal: real,       // price_subtotal
    standardPrice: real)  // the product's standard_price

  /** A `sale.order` with the fields the report reads; `dateOrder` is a day number. */
  datatype SaleOrder = SaleOrder(
    name: string,
    dateOrder: int,
    partnerId: nat,
    partnerName: string,
    companyId: nat,
    state: OrderState,
    lines: seq<SaleLine>)

  /** The wizard's fields: empty sets and no state mean "no filter". */
  datatype Wizard = Wizard(
    dateFrom: int,
    dateTo: int,
    partnerIds: set<nat>,
    categIds: set<nat>,
    state: Option<OrderState>,
    companyId: nat)

  // ---------------------------------------------------------------------------
  // Selecting the orders
  // ---------------------------------------------------------------------------

  /** One term of the search domain on `sale.order`. */
  datatype Term =
    | DateAtLeast(day: int)
    | DateAtMost(day: int)
    | CompanyIs(company: nat)
    | PartnerIn(partners: set<nat>)
    | StateIs(s: OrderState)
    | StateIsNot(s: OrderState)

  predicate Holds(t: Term, o: SaleOrder) {
    match t
    case DateAtLeast(d) => o.dateOrder >= d
    case DateAtMost(d) => o.dateOrder <= d
    case CompanyIs(c) => o.companyId == c
    case PartnerIn(ps) => o.partnerId in ps
    case StateIs(s) => o.state == s
    case StateIsNot(s) => o.state != s
  }

  /** A domain is the conjunction of its terms. */
  predicate MatchesDomain(o: SaleOrder, domain: seq<Term>) {
    forall i :: 0 <= i < |domain| ==> Holds(domain[i], o)
  }

  /**
   * The domain `_get_report_data` builds from the wizard. An order matches it exactly
   * when its date is in the range, its company is the wizard's, its customer is one of
   * the chosen ones (if any are chosen), and its state is the chosen one or, with none
   * chosen, anything but cancelled.
   */
  function BuildDomain(w: Wizard): (r: seq<Term>)
    ensures forall o :: MatchesDomain(o, r) <==>
      && w.dateFrom <= o.dateOrder <= w.dateTo
      && o.companyId == w.companyId
      && (w.partnerIds == {} || o.partnerId in w.partnerIds)
      && (if w.state.Some? then o.state == w.state.value else o.state != Cancel)
  {
    var stateTerm := if w.state.Some? then StateIs(w.state.value) else StateIsNot(Cancel);
    var d := [DateAtLeast(w.dateFrom), DateAtMost(w.dateTo), CompanyIs(w.companyId)]
      + (if w.partnerIds != {} then [PartnerIn(w.partnerIds)] else [])
      + [stateTerm];
    assert d[0] == DateAtLeast(w.dateFrom) && d[1] == DateAtMost(w.dateTo) && d[2] == CompanyIs(w.companyId);
    assert d[|d| - 1] == stateTerm;
    assert w.partnerIds != {} ==> d[3] == PartnerIn(w.partnerIds);
    d
  }

  /** The store's search: the orders that match, in the order the store returns them. */
  function Search(orders: seq<SaleOrder>, domain: seq<Term>): (r: seq<SaleOrder>)
    ensures |r| <= |orders|
    ensures forall k :: 0 <= k < |r| ==> MatchesDomain(r[k], domain)
    decreases |orders|
  {
    if |orders| == 0 then []
    else
      var init := Search(orders[..|orders| - 1], domain);
      var last := orders[|orders| - 1];
      if MatchesDomain(last, domain) then init + [last] else init
  }

  /** The search keeps exactly the matching orders. */
  lemma {:induction false} SearchMeans(orders: seq<SaleOrder>, domain: seq<Term>, o: SaleOrder)
    ensures o in Search(orders, domain) <==> o in orders && MatchesDomain(o, domain)
    decreases |orders|
  {
    if |orders| > 0 {
      var init := orders[..|orders| - 1];
      SearchMeans(init, domain, o);
      assert orders == init + [orders[|orders| - 1]];
    }
  }

  /** The lines of the chosen categories, in their order. */
  function CategoryLines(lines: seq<SaleLine>, categIds: set<nat>): seq<SaleLine>
    decreases |lines|
  {
    if |lines| == 0 then []
    else
      var init := CategoryLines(lines[..|lines| - 1], categIds);
      var last := lines[|lines| - 1];
      if last.categId in categIds then init + [last] else init
  }

  /** The lines an order contributes: all of them without a category filter. */
  function SelectLines(lines: seq<SaleLine>, categIds: set<nat>): seq<SaleLine> {
    if categIds != {} then CategoryLines(lines, categIds) else lines
  }

  /** With a category filter, a line counts exactly when its category is chosen. */
  lemma {:induction false} CategoryLinesMeans(lines: seq<SaleLine>, categIds: set<nat>, l: SaleLine)
    ensures l in CategoryLines(lines, categIds) <==> l in lines && l.categId in categIds
    decreases |lines|
  {
    if |lines| > 0 {
      var init := lines[..|lines| - 1];
      CategoryLinesMeans(init, categIds, l);
      assert lines == init + [lines[|lines| - 1]];
    }
  }

  // ---------------------------------------------------------------------------
  // The figures
  // ---------------------------------------------------------------------------

  function LineCost(l: SaleLine): real {
    l.quantity * l.standardPrice
  }

  function Revenue(lines: seq<SaleLine>): real
    decreases |lines|
  {
    if |lines| == 0 then 0.0 else Revenue(lines[..|lines| - 1]) + lines[|lines| - 1].subtotal
  }

  function Cost(lines: seq<SaleLine>): real
    decreases |lines|
  {
    if |lines| == 0 then 0.0 else Cost(lines[..|lines| - 1]) + LineCost(lines[|lines| - 1])
  }

  /**
   * `margin / revenue * 100`, and 0 when the revenue is 0 (a zero float is false):
   * exactly 0 without revenue, and otherwise the margin as a percentage of the revenue.
   */
  function MarginPercent(margin: real, revenue: real): (r: real)
    ensures revenue == 0.0 ==> r == 0.0
    ensures revenue != 0.0 ==> r * revenue == margin * 100.0
  {
    if revenue != 0.0 then margin / revenue * 100.0 else 0.0
  }

  /** With a positive revenue and a cost that is not negative, the margin percent is at most 100. */
  lemma MarginPercentAtMostHundred(revenue: real, cost: real)
    requires 0.0 < revenue && 0.0 <= cost
    ensures MarginPercent(revenue - cost, revenue) <= 100.0
  {
    var p := MarginPercent(revenue - cost, revenue);
    assert p * revenue == (revenue - cost) * 100.0;
    assert (revenue - cost) * 100.0 <= revenue * 100.0;
  }

  /** One entry of `_get_order_lines_data`. */
  datatype LineData = LineData(
    product: string,
    category: string,
    quantity: real,
    unitPrice: real,
    revenue: real,
    cost: real,
    margin: real,
    marginPercent: real)

  /** One entry of the report's order list (the order record itself is not carried). */
  datatype OrderData = OrderData(
    orderName: string,
    orderDate: int,
    customer: string,
    revenue: real,
    cost: real,
    margin: real,
    marginPercent: real,
    lines: seq<LineData>)

  datatype ReportData = ReportData(
    orders: seq<OrderData>,
    totalRevenue: real,
    totalCost: real,
    totalMargin: real,
    totalMarginPercent: real)

  function LineDataOf(l: SaleLine): LineData {
    var cost := LineCost(l);
    LineData(l.productName, l.categName, l.quantity, l.priceUnit, l.subtotal, cost, l.subtotal - cost,
             MarginPercent(l.subtotal - cost, l.subtotal))
  }

  /** The line data of an order: one entry per line, in order. */
  function LinesData(lines: seq<SaleLine>): (r: seq<LineData>)
    ensures |r| == |lines|
    decreases |lines|
  {
    if |lines| == 0 then [] else LinesData(lines[..|lines| - 1]) + [LineDataOf(lines[|lines| - 1])]
  }

  /**
   * Entry k of the line data is the figures of line k: revenue is its subtotal, cost its
   * quantity times the standard price, margin their difference, and the guarded percent.
   */
  lemma {:induction false} LinesDataMeans(lines: seq<SaleLine>)
    ensures forall k :: 0 <= k < |lines| ==>
      var d := LinesData(lines)[k];
      && d == LineDataOf(lines[k])
      && d.product == lines[k].productName && d.category == lines[k].categName
      && d.quantity == lines[k].quantity && d.unitPrice == lines[k].priceUnit
      && d.revenue == lines[k].subtotal && d.cost == lines[k].quantity * lines[k].standardPrice
      && d.margin == d.revenue - d.cost && d.marginPercent == MarginPercent(d.margin, d.revenue)
    decreases |lines|
  {
    if |lines| > 0 {
      var init := lines[..|lines| - 1];
      LinesDataMeans(init);
      assert forall k :: 0 <= k < |init| ==> init[k] == lines[k];
    }
  }

  function OrderDataOf(o: SaleOrder, lines: seq<SaleLine>): OrderData {
    var revenue := Revenue(lines);
    var cost := Cost(lines);
    OrderData(o.name, o.dateOrder, o.partnerName, revenue, cost, revenue - cost,
              MarginPercent(revenue - cost, revenue), LinesData(lines))
  }

  /** The report rows of the selected orders: orders left without lines are skipped. */
  function ReportRows(selected: seq<SaleOrder>, categIds: set<nat>): seq<OrderData>
    decreases |selected|
  {
    if |selected| == 0 then []
    else
      var init := ReportRows(selected[..|selected| - 1], categIds);
      var o := selected[|selected| - 1];
      var lines := SelectLines(o.lines, categIds);
      if |lines| == 0 then init else init + [OrderDataOf(o, lines)]
  }

  function SumRevenue(rows: seq<OrderData>): real
    decreases |rows|
  {
    if |rows| == 0 then 0.0 else SumRevenue(rows[..|rows| - 1]) + rows[|rows| - 1].revenue
  }

  function SumCost(rows: seq<OrderData>): real
    decreases |rows|
  {
    if |rows| == 0 then 0.0 else SumCost(rows[..|rows| - 1]) + rows[|rows| - 1].cost
  }

  function SumMargin(rows: seq<OrderData>): real
    decreases |rows|
  {
    if |rows| == 0 then 0.0 else SumMargin(rows[..|rows| - 1]) + rows[|rows| - 1].margin
  }

  /**
   * The report `_get_report_data` returns for the orders of the store, in the store's
   * order. Its totals: revenue and cost are the sums over the rows, every row's margin is its
   * revenue minus its cost, and the total margin is the sum of the row margins.
   */
  function ReportOf(orders: seq<SaleOrder>, w: Wizard): (r: ReportData)
    ensures r.totalRevenue == SumRevenue(r.orders) && r.totalCost == SumCost(r.orders)
    ensures MarginsConsistent(r.orders)
    ensures r.totalMargin == SumMargin(r.orders)
  {
    var rows := ReportRows(Search(orders, BuildDomain(w)), w.categIds);
    RowMarginsConsistent(Search(orders, BuildDomain(w)), w.categIds);
    TotalMarginIsSumOfMargins(rows);
    var revenue := SumRevenue(rows);
    var cost := SumCost(rows);
    ReportData(rows, revenue, cost, revenue - cost, MarginPercent(revenue - cost, revenue))
  }

  // ---------------------------------------------------------------------------
  // What the report promises
  // ---------------------------------------------------------------------------

  /**
   * Every row is an order that was selected and kept some line, with the figures of
   * those lines; and every selected order that kept a line has its row.
   */
  lemma {:induction false} ReportRowsMeans(selected: seq<SaleOrder>, categIds: set<nat>)
    ensures var rows := ReportRows(selected, categIds);
      && (forall k :: 0 <= k < |rows| ==>
            |rows[k].lines| > 0
            && exists i :: 0 <= i < |selected| && |SelectLines(selected[i].lines, categIds)| > 0
                 && rows[k] == OrderDataOf(selected[i], SelectLines(selected[i].lines, categIds)))
      && (forall i :: 0 <= i < |selected| && |SelectLines(selected[i].lines, categIds)| > 0 ==>
            OrderDataOf(selected[i], SelectLines(selected[i].lines, categIds)) in rows)
    decreases |selected|
  {
    if |selected| > 0 {
      var init := selected[..|selected| - 1];
      var last := selected[|selected| - 1];
      ReportRowsMeans(init, categIds);
      assert forall i :: 0 <= i < |init| ==> init[i] == selected[i];
      var before := ReportRows(init, categIds);
      var rows := ReportRows(selected, categIds);
      var lines := SelectLines(last.lines, categIds);
      if |lines| > 0 {
        var row := OrderDataOf(last, lines);
        assert rows == before + [row];
        forall k | 0 <= k < |rows|
          ensures |rows[k].lines| > 0
          ensures exists i :: 0 <= i < |selected| && |SelectLines(selected[i].lines, categIds)| > 0
                    && rows[k] == OrderDataOf(selected[i], SelectLines(selected[i].lines, categIds))
        {
          if k < |before| {
            assert rows[k] == before[k];
          } else {
            assert rows[k] == row && row.lines == LinesData(lines);
            assert |LinesData(lines)| == |lines|;
          }
        }
      } else {
        assert rows == before;
      }
    }
  }

  /** The order figures add up over the line data: revenues, costs and margins. */
  lemma {:induction false} LineDataAddsUp(lines: seq<SaleLine>)
    ensures SumLineRevenue(LinesData(lines)) == Revenue(lines)
    ensures SumLineCost(LinesData(lines)) == Cost(lines)
    ensures SumLineMargin(LinesData(lines)) == Revenue(lines) - Cost(lines)
    decreases |lines|
  {
    if |lines| > 0 {
      var init := lines[..|lines| - 1];
      LineDataAddsUp(init);
      assert LinesData(lines)[..|lines| - 1] == LinesData(init);
    }
  }

  function SumLineRevenue(ls: seq<LineData>): real
    decreases |ls|
  {
    if |ls| == 0 then 0.0 else SumLineRevenue(ls[..|ls| - 1]) + ls[|ls| - 1].revenue
  }

  function SumLineCost(ls: seq<LineData>): real
    decreases |ls|
  {
    if |ls| == 0 then 0.0 else SumLineCost(ls[..|ls| - 1]) + ls[|ls| - 1].cost
  }

  function SumLineMargin(ls: seq<LineData>): real
    decreases |ls|
  {
    if |ls| == 0 then 0.0 else SumLineMargin(ls[..|ls| - 1]) + ls[|ls| - 1].margin
  }

  /** Each row's line margins sum to the row's margin, and its line revenues and costs to its own. */
  lemma RowLinesAddUp(o: SaleOrder, lines: seq<SaleLine>)
    ensures var row := OrderDataOf(o, lines);
      && SumLineRevenue(row.lines) == row.revenue
      && SumLineCost(row.lines) == row.cost
      && SumLineMargin(row.lines) == row.margin
  {
    LineDataAddsUp(lines);
  }

  /** The total margin is the sum of the order margins when every row's margin is its revenue minus its cost. */
  lemma {:induction false} TotalMarginIsSumOfMargins(rows: seq<OrderData>)
    requires MarginsConsistent(rows)
    ensures SumMargin(rows) == SumRevenue(rows) - SumCost(rows)
    decreases |rows|
  {
    if |rows| > 0 {
      TotalMarginIsSumOfMargins(rows[..|rows| - 1]);
    }
  }

  predicate MarginsConsistent(rows: seq<OrderData>) {
    forall k :: 0 <= k < |rows| ==> rows[k].margin == rows[k].revenue - rows[k].cost
  }

  /** Every row's margin is its revenue minus its cost. */
  lemma {:induction false} RowMarginsConsistent(selected: seq<SaleOrder>, categIds: set<nat>)
    ensures MarginsConsistent(ReportRows(selected, categIds))
    decreases |selected|
  {
    if |selected| > 0 {
      var init := selected[..|selected| - 1];
      RowMarginsConsistent(init, categIds);
      var rows := ReportRows(selected, categIds);
      var before := ReportRows(init, categIds);
      var lines := SelectLines(selected[|selected| - 1].lines, categIds);
      if |lines| > 0 {
        var row := OrderDataOf(selected[|selected| - 1], lines);
        assert rows == before + [row];
        assert forall k :: 0 <= k < |before| ==> rows[k] == before[k];
        assert rows[|before|] == row;
      }
    }
  }

  predicate DateDescending(orders: seq<SaleOrder>) {
    forall i, j :: 0 <= i < j < |orders| ==> orders[i].dateOrder >= orders[j].dateOrder
  }

  predicate RowsDateDescending(rows: seq<OrderData>) {
    forall i, j :: 0 <= i < j < |rows| ==> rows[i].orderDate >= rows[j].orderDate
  }

  lemma {:induction false} SearchAtLeast(orders: seq<SaleOrder>, domain: seq<Term>, day: int)
    requires forall i :: 0 <= i < |orders| ==> orders[i].dateOrder >= day
    ensures forall k :: 0 <= k < |Search(orders, domain)| ==> Search(orders, domain)[k].dateOrder >= day
    decreases |orders|
  {
    if |orders| > 0 {
      SearchAtLeast(orders[..|orders| - 1], domain, day);
    }
  }

  /** The search keeps the store's `date_order desc` order. */
  lemma {:induction false} SearchKeepsOrder(orders: seq<SaleOrder>, domain: seq<Term>)
    requires DateDescending(orders)
    ensures DateDescending(Search(orders, domain))
    decreases |orders|
  {
    if |orders| > 0 {
      var init := orders[..|orders| - 1];
      SearchKeepsOrder(init, domain);
      SearchAtLeast(init, domain, orders[|orders| - 1].dateOrder);
    }
  }

  lemma {:induction false} RowsAtLeast(selected: seq<SaleOrder>, categIds: set<nat>, day: int)
    requires forall i :: 0 <= i < |selected| ==> selected[i].dateOrder >= day
    ensures forall k :: 0 <= k < |ReportRows(selected, categIds)| ==> ReportRows(selected, categIds)[k].orderDate >= day
    decreases |selected|
  {
    if |selected| > 0 {
      RowsAtLeast(selected[..|selected| - 1], categIds, day);
    }
  }

  /** The rows come out newest first when the store returns the orders newest first. */
  lemma {:induction false} ReportRowsNewestFirst(selected: seq<SaleOrder>, categIds: set<nat>)
    requires DateDescending(selected)
    ensures RowsDateDescending(ReportRows(selected, categIds))
    decreases |selected|
  {
    if |selected| > 0 {
      var init := selected[..|selected| - 1];
      ReportRowsNewestFirst(init, categIds);
      RowsAtLeast(init, categIds, selected[|selected| - 1].dateOrder);
    }
  }

  /** The report lists its orders newest first. */
  lemma ReportNewestFirst(orders: seq<SaleOrder>, w: Wizard)
    requires DateDescending(orders)
    ensures RowsDateDescending(ReportOf(orders, w).orders)
  {
    SearchKeepsOrder(orders, BuildDomain(w));
    ReportRowsNewestFirst(Search(orders, BuildDomain(w)), w.categIds);
  }

  // ---------------------------------------------------------------------------
  // The loops of the wizard
  // ---------------------------------------------------------------------------

  /** `_get_order_lines_data`. */
  method GetOrderLinesData(lines: seq<SaleLine>) returns (data: seq<LineData>)
    ensures data == LinesData(lines)
  {
    data := [];
    var i := 0;
    while i < |lines|
      invariant 0 <= i <= |lines|
      invariant data == LinesData(lines[..i])
    {
      var line := lines[i];
      var lineCost := LineCost(line);
      var lineMargin := line.subtotal - lineCost;
      var lineMarginPercent := MarginPercent(lineMargin, line.subtotal);
      var entry := LineData(line.productName, line.categName, line.quantity, line.priceUnit,
                            line.subtotal, lineCost, lineMargin, lineMarginPercent);
      assert entry == LineDataOf(line);
      assert lines[..i + 1][..i] == lines[..i];
      assert LinesData(lines[..i + 1]) == LinesData(lines[..i]) + [LineDataOf(line)];
      data := data + [entry];
      i := i + 1;
    }
    assert lines[..i] == lines;
  }

  lemma ReportRowsStep(selected: seq<SaleOrder>, i: nat, categIds: set<nat>)
    requires i < |selected|
    ensures var lines := SelectLines(selected[i].lines, categIds);
      ReportRows(selected[..i + 1], categIds)
        == ReportRows(selected[..i], categIds) + (if |lines| > 0 then [OrderDataOf(selected[i], lines)] else [])
  {
    assert selected[..i + 1][..i] == selected[..i];
  }

  lemma SumsStep(rows: seq<OrderData>, row: OrderData)
    ensures SumRevenue(rows + [row]) == SumRevenue(rows) + row.revenue
    ensures SumCost(rows + [row]) == SumCost(rows) + row.cost
  {
    assert (rows + [row])[..|rows|] == rows;
  }

  /** The figures of one order in `_get_report_data`, from the lines it kept. */
  method OrderRow(order: SaleOrder, orderLines: seq<SaleLine>) returns (row: OrderData)
    ensures row == OrderDataOf(order, orderLines)
  {
    var orderRevenue := Revenue(orderLines);
    var orderCost := Cost(orderLines);
    var orderMargin := orderRevenue - orderCost;
    var orderMarginPercent := MarginPercent(orderMargin, orderRevenue);
    var linesData := GetOrderLinesData(orderLines);
    row := OrderData(order.name, order.dateOrder, order.partnerName, orderRevenue,
                     orderCost, orderMargin, orderMarginPercent, linesData);
  }

  /** The loop of `_get_report_data` over the orders found: the rows and the running totals. */
  method AccumulateOrders(saleOrders: seq<SaleOrder>, categIds: set<nat>)
    returns (reportData: seq<OrderData>, totalRevenue: real, totalCost: real)
    ensures reportData == ReportRows(saleOrders, categIds)
    ensures totalRevenue == SumRevenue(reportData) && totalCost == SumCost(reportData)
  {
    reportData := [];
    totalRevenue := 0.0;
    totalCost := 0.0;
    var i := 0;
    while i < |saleOrders|
      invariant 0 <= i <= |saleOrders|
      invariant reportData == ReportRows(saleOrders[..i], categIds)
      invariant totalRevenue == SumRevenue(reportData) && totalCost == SumCost(reportData)
    {
      var order := saleOrders[i];
      var orderLines := order.lines;
      if categIds != {} {
        orderLines := CategoryLines(orderLines, categIds);
      }
      ReportRowsStep(saleOrders, i, categIds);
      if |orderLines| > 0 {
        var row := OrderRow(order, orderLines);
        SumsStep(reportData, row);
        totalRevenue := totalRevenue + row.revenue;
        totalCost := totalCost + row.cost;
        reportData := reportData + [row];
      }
      i := i + 1;
    }
    assert saleOrders[..i] == saleOrders;
  }

  /** `_get_report_data`: search the orders newest first, accumulate, then the totals. */
  method GetReportData(orders: seq<SaleOrder>, w: Wizard) returns (data: ReportData)
    ensures data == ReportOf(orders, w)
  {
    var saleOrders := Search(orders, BuildDomain(w));
    var reportData, totalRevenue, totalCost := AccumulateOrders(saleOrders, w.categIds);
    var totalMargin := totalRevenue - totalCost;
    var totalMarginPercent := MarginPercent(totalMargin, totalRevenue);
    data := ReportData(reportData, totalRevenue, totalCost, totalMargin, totalMarginPercent);
  }

  // ---------------------------------------------------------------------------
  // The spreadsheet layout
  // ---------------------------------------------------------------------------

  /** A written cell; dates are kept as day numbers (the text formatting is not modelled). */
  datatype Cell = Text(text: string) | Number(value: real) | Day(day: int)

  type Sheet = map<(nat, nat), Cell>

  const Headers: seq<string> := ["Order", "Date", "Customer", "Revenue", "Cost", "Margin", "Margin %"]

  /** Row `r` holds order `od`: name, date, customer, the three amounts and the percent as a fraction. */
  predicate OrderRowAt(sheet: Sheet, r: nat, od: OrderData) {
    && (forall c :: 0 <= c < 7 ==> (r, c) in sheet)
    && sheet[(r, 0)] == Text(od.orderName)
    && sheet[(r, 1)] == Day(od.orderDate)
    && sheet[(r, 2)] == Text(od.customer)
    && sheet[(r, 3)] == Number(od.revenue)
    && sheet[(r, 4)] == Number(od.cost)
    && sheet[(r, 5)] == Number(od.margin)
    && sheet[(r, 6)] == Number(od.marginPercent / 100.0)
  }

  /** Row `r` holds the totals, labelled in column 2. */
  predicate TotalsRowAt(sheet: Sheet, r: nat, data: ReportData) {
    && (forall c :: 2 <= c < 7 ==> (r, c) in sheet)
    && sheet[(r, 2)] == Text("TOTAL:")
    && sheet[(r, 3)] == Number(data.totalRevenue)
    && sheet[(r, 4)] == Number(data.totalCost)
    && sheet[(r, 5)] == Number(data.totalMargin)
    && sheet[(r, 6)] == Number(data.totalMarginPercent / 100.0)
  }

  /** The cells written for `n` orders: headers, `n` order rows, one blank row, the totals from column 2. */
  predicate InLayout(cell: (nat, nat), n: nat) {
    cell.1 < 7 && (cell.0 <= n || (cell.0 == n + 2 && 2 <= cell.1))
  }

  /** The seven writes of one order row. */
  function WriteOrderRow(sheet: Sheet, r: nat, od: OrderData): (s: Sheet)
    ensures OrderRowAt(s, r, od)
    ensures forall cell :: cell in s <==> cell in sheet || (cell.0 == r && cell.1 < 7)
    ensures forall cell :: cell in sheet && cell.0 != r ==> s[cell] == sheet[cell]
  {
    sheet[(r, 0) := Text(od.orderName)][(r, 1) := Day(od.orderDate)][(r, 2) := Text(od.customer)]
         [(r, 3) := Number(od.revenue)][(r, 4) := Number(od.cost)][(r, 5) := Number(od.margin)]
         [(r, 6) := Number(od.marginPercent / 100.0)]
  }

  /** The five writes of the totals row. */
  function WriteTotalsRow(sheet: Sheet, r: nat, data: ReportData): (s: Sheet)
    ensures TotalsRowAt(s, r, data)
    ensures forall cell :: cell in s <==> cell in sheet || (cell.0 == r && 2 <= cell.1 < 7)
    ensures forall cell :: cell in sheet && cell.0 != r ==> s[cell] == sheet[cell]
  {
    sheet[(r, 2) := Text("TOTAL:")][(r, 3) := Number(data.totalRevenue)]
         [(r, 4) := Number(data.totalCost)][(r, 5) := Number(data.totalMargin)]
         [(r, 6) := Number(data.totalMarginPercent / 100.0)]
  }

  /** The header loop of `_generate_excel_report`: header `c` in column `c` of row 0. */
  method WriteHeaders() returns (sheet: Sheet)
    ensures forall c :: 0 <= c < 7 ==> (0, c) in sheet && sheet[(0, c)] == Text(Headers[c])
    ensures forall cell :: cell in sheet <==> cell.0 == 0 && cell.1 < 7
  {
    sheet := map[];
    for col := 0 to 7
      invariant forall c :: 0 <= c < col ==> (0, c) in sheet && sheet[(0, c)] == Text(Headers[c])
      invariant forall cell :: cell in sheet <==> cell.0 == 0 && cell.1 < col
    {
      sheet := sheet[(0, col) := Text(Headers[col])];
    }
  }

  /**
   * `_generate_excel_report`: headers in row 0, order k in row k + 1, nothing in
   * the row after the last order, the totals in the row after that, and no other cell.
   */
  method GenerateExcelReport(data: ReportData) returns (sheet: Sheet)
    ensures forall c :: 0 <= c < 7 ==> (0, c) in sheet && sheet[(0, c)] == Text(Headers[c])
    ensures forall k :: 0 <= k < |data.orders| ==> OrderRowAt(sheet, k + 1, data.orders[k])
    ensures TotalsRowAt(sheet, |data.orders| + 2, data)
    ensures forall cell :: cell in sheet <==> InLayout(cell, |data.orders|)
  {
    sheet := WriteHeaders();
    var row: nat := 1;
    var k := 0;
    while k < |data.orders|
      invariant 0 <= k <= |data.orders| && row == k + 1
      invariant forall c :: 0 <= c < 7 ==> (0, c) in sheet && sheet[(0, c)] == Text(Headers[c])
      invariant forall j :: 0 <= j < k ==> OrderRowAt(sheet, j + 1, data.orders[j])
      invariant forall cell :: cell in sheet <==> cell.1 < 7 && cell.0 < row
    {
      sheet := WriteOrderRow(sheet, row, data.orders[k]);
      row := row + 1;
      k := k + 1;
    }
    sheet := WriteTotalsRow(sheet, row + 1, data);
  }
}

/** The chart and the summary cards of the invoice-wise Temp Credit Status
    report: the top 10 salesmen by outstanding, or the top 10 customers by
    used credit, and the totals over the customer-distinct summary. */
module TempCreditStatusCharts {
  import opened Common
  import opened Sums
  import opened Ordering
  import opened TempCreditStatus

  const NotSet := "Not Set"
  const TopCount := 10
  const DefaultSummaryMode := "Salesman Wise"
  const CustomerWiseMode := "Customer Wise"

  /** `(salesman_name or salesman_user or "Not Set").strip()` */
  function SalesmanKey(salesmanName: string, salesmanUser: string): string {
    Strip(OrElse(OrElse(salesmanName, salesmanUser), NotSet))
  }

  function RowKey(row: InvoiceRow): string {
    SalesmanKey(row.salesmanName, row.salesmanUser)
  }

  function EntryKey(e: CustomerSummary): string {
    SalesmanKey(e.salesmanName, e.salesmanUser)
  }

  /** The salesman keys in the order they first occur among the rows
      (the insertion order of `used_by_salesman`). */
  function KeyOrder(rows: seq<InvoiceRow>): (order: seq<string>)
    ensures forall i :: 0 <= i < |rows| ==> RowKey(rows[i]) in order
    ensures forall i, j :: 0 <= i < j < |order| ==> order[i] != order[j]
  {
    if rows == [] then []
    else
      var init := rows[..|rows| - 1];
      var order := KeyOrder(init);
      var key := RowKey(rows[|rows| - 1]);
      assert forall i :: 0 <= i < |init| ==> rows[i] == init[i];
      if key in order then order else order + [key]
  }

  /** Every key comes from a row: there is no bar for a salesman without rows. */
  lemma {:induction false} KeyOrderOrigin(rows: seq<InvoiceRow>, k: string)
    requires k in KeyOrder(rows)
    ensures exists i :: 0 <= i < |rows| && RowKey(rows[i]) == k
  {
    var init := rows[..|rows| - 1];
    if k in KeyOrder(init) {
      KeyOrderOrigin(init, k);
      var i :| 0 <= i < |init| && RowKey(init[i]) == k;
      assert rows[i] == init[i];
    }
  }

  /** Keys come in the order of their first rows: before any row under a
      later key there is a row under every earlier key. */
  lemma {:induction false} KeyOrderFirstOccurrence(rows: seq<InvoiceRow>, p: int, q: int, r: int)
    requires 0 <= p < q < |KeyOrder(rows)|
    requires 0 <= r < |rows| && RowKey(rows[r]) == KeyOrder(rows)[q]
    ensures exists t :: 0 <= t < r && RowKey(rows[t]) == KeyOrder(rows)[p]
  {
    var init := rows[..|rows| - 1];
    var order := KeyOrder(init);
    var key := RowKey(rows[|rows| - 1]);
    assert forall i :: 0 <= i < |init| ==> rows[i] == init[i];
    if q < |order| {
      assert KeyOrder(rows)[p] == order[p] && KeyOrder(rows)[q] == order[q];
      if r < |init| {
        KeyOrderFirstOccurrence(init, p, q, r);
      } else {
        // the last row's key is an earlier key: it has a row in `init` too
        KeyOrderOrigin(init, order[q]);
        var r' :| 0 <= r' < |init| && RowKey(init[r']) == order[q];
        KeyOrderFirstOccurrence(init, p, q, r');
      }
    } else {
      // the last key is new: its only row is the last one
      assert r == |rows| - 1;
      KeyOrderOrigin(init, order[p]);
      var t :| 0 <= t < |init| && RowKey(init[t]) == order[p];
      assert RowKey(rows[t]) == KeyOrder(rows)[p];
    }
  }

  /** The outstanding of the rows under one salesman key. */
  function UsedBy(rows: seq<InvoiceRow>, key: string): int {
    if rows == [] then 0
    else UsedBy(rows[..|rows| - 1], key)
         + (if RowKey(rows[|rows| - 1]) == key then rows[|rows| - 1].invoiceOutstanding else 0)
  }

  /** The customers whose summary entry falls under one salesman key. */
  function CustomersUnder(summary: seq<CustomerSummary>, key: string): set<string> {
    if summary == [] then {}
    else CustomersUnder(summary[..|summary| - 1], key)
         + (if EntryKey(summary[|summary| - 1]) == key then {summary[|summary| - 1].customer} else {})
  }

  /** The credit limits of the summary entries under one salesman key. */
  function LimitBy(summary: seq<CustomerSummary>, key: string): int {
    if summary == [] then 0
    else LimitBy(summary[..|summary| - 1], key)
         + (if EntryKey(summary[|summary| - 1]) == key then summary[|summary| - 1].creditLimit else 0)
  }

  /** `{cust: csum["credit_limit"]}` as (customer, limit) entries. */
  function LimitEntries(summary: seq<CustomerSummary>): (es: seq<Entry>)
    ensures |es| == |summary|
    ensures forall i :: 0 <= i < |summary| ==> es[i] == Entry(summary[i].customer, summary[i].creditLimit)
  {
    if summary == [] then []
    else LimitEntries(summary[..|summary| - 1])
         + [Entry(summary[|summary| - 1].customer, summary[|summary| - 1].creditLimit)]
  }

  /** One bar per salesman key, in first-occurrence order, before sorting. */
  function SalesmanBars(rows: seq<InvoiceRow>, summary: seq<CustomerSummary>): seq<Bar> {
    var order := KeyOrder(rows);
    seq(|order|, j requires 0 <= j < |order| => Bar(order[j], UsedBy(rows, order[j]), LimitBy(summary, order[j])))
  }

  /** `sort(key=used, reverse=True)` */
  predicate UsedOrder(a: Bar, b: Bar) {
    a.used >= b.used
  }

  lemma UsedOrderIsTotalPreorder()
    ensures TotalPreorder(UsedOrder)
  {
  }

  function SetOr(m: map<string, set<string>>, key: string): set<string> {
    if key in m then m[key] else {}
  }

  /** `_chart_salesman_wise`: the ten salesmen with the most outstanding;
      each bar's limit counts every customer of that salesman once. */
  method ChartSalesmanWise(rows: seq<InvoiceRow>, summary: seq<CustomerSummary>) returns (chart: Option<seq<Bar>>)
    requires DistinctCustomers(summary)
    ensures chart == if rows == [] then None else Some(TopN(SalesmanBars(rows, summary), UsedOrder, TopCount))
  {
    var order, usedBy := UsedBySalesman(rows);
    var custsBy := CustomersBySalesman(summary);
    var limits := MapOf(LimitEntries(summary));
    var limitBy := LimitBySalesman(custsBy, limits);

    var bars := BarsOf(order, usedBy, limitBy);
    BarsAreSalesmanBars(rows, summary, order, usedBy, custsBy, limitBy, bars);

    UsedOrderIsTotalPreorder();
    var top := TopN(bars, UsedOrder, TopCount);
    if top == [] {
      return None;
    }
    chart := Some(top);
  }

  /** Fourth loop: one bar per key of `used_by_salesman`, in its order. */
  method BarsOf(order: seq<string>, usedBy: map<string, int>, limitBy: map<string, int>) returns (bars: seq<Bar>)
    requires forall key :: key in order ==> key in usedBy
    ensures |bars| == |order|
    ensures forall t :: 0 <= t < |order| ==> bars[t] == Bar(order[t], usedBy[order[t]], Get(limitBy, order[t]))
  {
    bars := [];
    for j := 0 to |order|
      invariant |bars| == j
      invariant forall t :: 0 <= t < j ==> bars[t] == Bar(order[t], usedBy[order[t]], Get(limitBy, order[t]))
    {
      bars := bars + [Bar(order[j], usedBy[order[j]], Get(limitBy, order[j]))];
    }
  }

  /** The bars the loops build are the salesman bars of the rows and summary. */
  lemma BarsAreSalesmanBars(rows: seq<InvoiceRow>, summary: seq<CustomerSummary>, order: seq<string>,
                            usedBy: map<string, int>, custsBy: map<string, set<string>>,
                            limitBy: map<string, int>, bars: seq<Bar>)
    requires DistinctCustomers(summary)
    requires order == KeyOrder(rows)
    requires forall key :: key in usedBy <==> key in order
    requires forall key :: key in usedBy ==> usedBy[key] == UsedBy(rows, key)
    requires forall k :: SetOr(custsBy, k) == CustomersUnder(summary, k)
    requires limitBy.Keys == custsBy.Keys
    requires forall k :: k in limitBy ==> limitBy[k] == SetSum(custsBy[k], MapOf(LimitEntries(summary)))
    requires |bars| == |order|
    requires forall t :: 0 <= t < |order| ==> bars[t] == Bar(order[t], usedBy[order[t]], Get(limitBy, order[t]))
    ensures bars == SalesmanBars(rows, summary)
  {
    var expected := SalesmanBars(rows, summary);
    forall t | 0 <= t < |order| ensures bars[t] == expected[t] {
      assert order[t] in order;
      SalesmanLimitIsDistinctSum(summary, custsBy, limitBy, order[t]);
    }
  }

  /** First loop of `_chart_salesman_wise`: `used_by_salesman`. */
  method UsedBySalesman(rows: seq<InvoiceRow>) returns (order: seq<string>, usedBy: map<string, int>)
    ensures order == KeyOrder(rows)
    ensures forall key :: key in usedBy <==> key in order
    ensures forall key :: key in usedBy ==> usedBy[key] == UsedBy(rows, key)
  {
    order, usedBy := [], map[];
    for i := 0 to |rows|
      invariant order == KeyOrder(rows[..i])
      invariant forall key :: key in usedBy <==> key in order
      invariant forall key :: Get(usedBy, key) == UsedBy(rows[..i], key)
    {
      var prefix := rows[..i + 1];
      assert prefix[..i] == rows[..i];
      var key := RowKey(rows[i]);
      assert KeyOrder(prefix) == if key in order then order else order + [key];
      assert forall k :: UsedBy(prefix, k) == UsedBy(rows[..i], k) + (if k == key then rows[i].invoiceOutstanding else 0);
      if key !in usedBy {
        order := order + [key];
      }
      usedBy := usedBy[key := Get(usedBy, key) + rows[i].invoiceOutstanding];
    }
    assert rows[..|rows|] == rows;
    assert forall key :: key in usedBy ==> usedBy[key] == Get(usedBy, key);
  }

  /** Second loop: `custs_by_salesman`. */
  method CustomersBySalesman(summary: seq<CustomerSummary>) returns (custsBy: map<string, set<string>>)
    ensures forall key :: SetOr(custsBy, key) == CustomersUnder(summary, key)
    ensures forall key :: key in custsBy ==> custsBy[key] != {}
  {
    custsBy := map[];
    for i := 0 to |summary|
      invariant forall key :: SetOr(custsBy, key) == CustomersUnder(summary[..i], key)
      invariant forall key :: key in custsBy ==> custsBy[key] != {}
    {
      assert summary[..i + 1][..i] == summary[..i];
      var key := EntryKey(summary[i]);
      if key !in custsBy {
        custsBy := custsBy[key := {}];
      }
      custsBy := custsBy[key := custsBy[key] + {summary[i].customer}];
    }
    assert summary[..|summary|] == summary;
  }

  /** Third loop: `limit_by_salesman`, each salesman's customers' limits
      added in no particular order. */
  method LimitBySalesman(custsBy: map<string, set<string>>, limits: map<string, int>) returns (limitBy: map<string, int>)
    ensures limitBy.Keys == custsBy.Keys
    ensures forall key :: key in limitBy ==> limitBy[key] == SetSum(custsBy[key], limits)
  {
    limitBy := map[];
    var pending := custsBy.Keys;
    while pending != {}
      invariant pending <= custsBy.Keys
      invariant limitBy.Keys == custsBy.Keys - pending
      invariant forall key :: key in limitBy ==> limitBy[key] == SetSum(custsBy[key], limits)
      decreases pending
    {
      var key :| key in pending;
      var total := 0;
      var customers := custsBy[key];
      var rest := customers;
      while rest != {}
        invariant rest <= customers
        invariant total + SetSum(rest, limits) == SetSum(customers, limits)
        decreases rest
      {
        var cust :| cust in rest;
        SetSumRemove(rest, cust, limits);
        total := total + Get(limits, cust);
        rest := rest - {cust};
      }
      limitBy := limitBy[key := total];
      pending := pending - {key};
    }
  }

  /** What the second and third loops compute for one salesman key is the
      sum of the limits of the summary entries under that key. */
  lemma SalesmanLimitIsDistinctSum(summary: seq<CustomerSummary>, custsBy: map<string, set<string>>,
                                   limitBy: map<string, int>, key: string)
    requires DistinctCustomers(summary)
    requires forall k :: SetOr(custsBy, k) == CustomersUnder(summary, k)
    requires limitBy.Keys == custsBy.Keys
    requires forall k :: k in limitBy ==> limitBy[k] == SetSum(custsBy[k], MapOf(LimitEntries(summary)))
    ensures Get(limitBy, key) == LimitBy(summary, key)
  {
    assert SetOr(custsBy, key) == CustomersUnder(summary, key);
    if key in custsBy {
      var es := LimitEntries(summary);
      assert DistinctKeys(es);
      SetSumOfDistinct(es, CustomersUnder(summary, key));
      LimitByIsSumOverCustomers(summary, key);
    } else {
      NoCustomersNoLimit(summary, key);
    }
  }

  lemma {:induction false} NoCustomersNoLimit(summary: seq<CustomerSummary>, key: string)
    requires CustomersUnder(summary, key) == {}
    ensures LimitBy(summary, key) == 0
  {
    if summary != [] {
      NoCustomersNoLimit(summary[..|summary| - 1], key);
    }
  }

  /** With one entry per customer, the limit under a salesman key is the
      sum, over that salesman's customers, of each one's limit, once. */
  lemma {:induction false} LimitByIsSumOverCustomers(summary: seq<CustomerSummary>, key: string)
    requires DistinctCustomers(summary)
    ensures SumWhere(LimitEntries(summary), CustomersUnder(summary, key)) == LimitBy(summary, key)
  {
    if summary != [] {
      var init, last := summary[..|summary| - 1], summary[|summary| - 1];
      var es := LimitEntries(summary);
      assert es[..|es| - 1] == LimitEntries(init);
      LimitByIsSumOverCustomers(init, key);
      if last.customer in Keys(LimitEntries(init)) {
        KeysIndex(LimitEntries(init), last.customer);
        assert false;
      }
      CustomersUnderInit(init, key);
      SumWhereRelevant(LimitEntries(init), CustomersUnder(summary, key), CustomersUnder(init, key));
    }
  }

  lemma {:induction false} CustomersUnderInit(summary: seq<CustomerSummary>, key: string)
    ensures CustomersUnder(summary, key) <= Keys(LimitEntries(summary))
  {
    if summary != [] {
      var init := summary[..|summary| - 1];
      CustomersUnderInit(init, key);
      assert LimitEntries(summary)[..|summary| - 1] == LimitEntries(init);
    }
  }

  // ---------------- Every invoice under exactly one salesman ----------------

  function TotalOutstanding(rows: seq<InvoiceRow>): int {
    if rows == [] then 0 else TotalOutstanding(rows[..|rows| - 1]) + rows[|rows| - 1].invoiceOutstanding
  }

  function SumBarsUsed(bars: seq<Bar>): int {
    if bars == [] then 0 else SumBarsUsed(bars[..|bars| - 1]) + bars[|bars| - 1].used
  }

  function UsedOver(rows: seq<InvoiceRow>, keys: seq<string>): int {
    if keys == [] then 0 else UsedOver(rows, keys[..|keys| - 1]) + UsedBy(rows, keys[|keys| - 1])
  }

  lemma {:induction false} NoRowsNoUse(rows: seq<InvoiceRow>, key: string)
    requires forall i :: 0 <= i < |rows| ==> RowKey(rows[i]) != key
    ensures UsedBy(rows, key) == 0
  {
    if rows != [] {
      var init := rows[..|rows| - 1];
      assert forall i :: 0 <= i < |init| ==> init[i] == rows[i];
      NoRowsNoUse(init, key);
    }
  }

  /** Adding a row adds its outstanding to the one key it falls under. */
  lemma {:induction false} UsedOverAppend(rows: seq<InvoiceRow>, row: InvoiceRow, keys: seq<string>)
    requires forall i, j :: 0 <= i < j < |keys| ==> keys[i] != keys[j]
    ensures UsedOver(rows + [row], keys) ==
            UsedOver(rows, keys) + (if RowKey(row) in keys then row.invoiceOutstanding else 0)
  {
    if keys != [] {
      var init := keys[..|keys| - 1];
      assert (rows + [row])[..|rows|] == rows;
      UsedOverAppend(rows, row, init);
      assert keys == init + [keys[|keys| - 1]];
      if RowKey(row) in init {
        var i :| 0 <= i < |init| && init[i] == RowKey(row);
        assert keys[i] == RowKey(row);
      }
    }
  }

  /** The used amounts of all salesman bars add up to the outstanding of
      all rows: each invoice is counted under exactly one salesman. */
  lemma {:induction false} KeyOrderCoversOutstanding(rows: seq<InvoiceRow>)
    ensures UsedOver(rows, KeyOrder(rows)) == TotalOutstanding(rows)
  {
    if rows != [] {
      var init, row := rows[..|rows| - 1], rows[|rows| - 1];
      var order := KeyOrder(init);
      KeyOrderCoversOutstanding(init);
      assert rows == init + [row];
      UsedOverAppend(init, row, order);
      if RowKey(row) !in order {
        NoRowsNoUse(init, RowKey(row));
        assert (order + [RowKey(row)])[..|order|] == order;
      }
    }
  }

  lemma {:induction false} SumBarsIsUsedOver(rows: seq<InvoiceRow>, bars: seq<Bar>, keys: seq<string>)
    requires |bars| == |keys|
    requires forall j :: 0 <= j < |keys| ==> bars[j].used == UsedBy(rows, keys[j])
    ensures SumBarsUsed(bars) == UsedOver(rows, keys)
  {
    if keys != [] {
      SumBarsIsUsedOver(rows, bars[..|bars| - 1], keys[..|keys| - 1]);
    }
  }

  lemma SalesmanBarsCoverOutstanding(rows: seq<InvoiceRow>, summary: seq<CustomerSummary>)
    ensures SumBarsUsed(SalesmanBars(rows, summary)) == TotalOutstanding(rows)
  {
    SumBarsIsUsedOver(rows, SalesmanBars(rows, summary), KeyOrder(rows));
    KeyOrderCoversOutstanding(rows);
  }

  // ---------------- Customer chart, dispatch, totals ----------------

  function CustomerBar(e: CustomerSummary): Bar {
    Bar(e.customer, e.usedCredit, e.creditLimit)
  }

  /** One bar per summary entry, in summary order. */
  function CustomerBars(summary: seq<CustomerSummary>): seq<Bar> {
    seq(|summary|, i requires 0 <= i < |summary| => CustomerBar(summary[i]))
  }

  /** `_chart_top_customers`: the ten customers using the most credit. */
  function ChartTopCustomers(summary: seq<CustomerSummary>): (chart: Option<seq<Bar>>)
    ensures chart.None? <==> summary == []
    ensures chart.Some? ==> multiset(chart.value) <= multiset(CustomerBars(summary))
    ensures chart.Some? ==> |chart.value| == if |summary| < TopCount then |summary| else TopCount
    ensures chart.Some? ==> SortedBy(chart.value, UsedOrder)
    ensures chart.Some? ==> forall b :: b in chart.value ==> exists e :: e in summary && b == CustomerBar(e)
    ensures chart.Some? ==> forall e :: e in summary && CustomerBar(e) !in chart.value ==>
                              forall b :: b in chart.value ==> e.usedCredit <= b.used
  {
    if summary == [] then None
    else
      var bars := CustomerBars(summary);
      var top := TopN(bars, UsedOrder, TopCount);
      UsedOrderIsTotalPreorder();
      assert forall b :: b in top ==> exists e :: e in summary && b == CustomerBar(e) by {
        forall b | b in top ensures exists e :: e in summary && b == CustomerBar(e) {
          assert b in multiset(top);
          assert b in multiset(bars);
          var i :| 0 <= i < |bars| && bars[i] == b;
          assert summary[i] in summary;
        }
      }
      assert forall e :: e in summary ==> CustomerBar(e) in bars by {
        forall e | e in summary ensures CustomerBar(e) in bars {
          var i :| 0 <= i < |summary| && summary[i] == e;
          assert bars[i] == CustomerBar(e);
        }
      }
      Some(top)
  }

  /** `get_chart`: no chart without rows; otherwise the mode picks it,
      salesman-wise by default. */
  method GetChart(summary: seq<CustomerSummary>, rows: seq<InvoiceRow>, summaryMode: string)
    returns (chart: Option<seq<Bar>>)
    requires DistinctCustomers(summary)
    ensures rows == [] ==> chart == None
    ensures rows != [] && Strip(OrElse(summaryMode, DefaultSummaryMode)) == CustomerWiseMode ==>
              chart == ChartTopCustomers(summary)
    ensures rows != [] && Strip(OrElse(summaryMode, DefaultSummaryMode)) != CustomerWiseMode ==>
              chart == Some(TopN(SalesmanBars(rows, summary), UsedOrder, TopCount))
  {
    if rows == [] {
      return None;
    }
    var mode := Strip(OrElse(summaryMode, DefaultSummaryMode));
    if mode == CustomerWiseMode {
      return ChartTopCustomers(summary);
    }
    chart := ChartSalesmanWise(rows, summary);
  }

  function SumUsed(summary: seq<CustomerSummary>): int {
    if summary == [] then 0 else SumUsed(summary[..|summary| - 1]) + summary[|summary| - 1].usedCredit
  }

  function SumLimit(summary: seq<CustomerSummary>): int {
    if summary == [] then 0 else SumLimit(summary[..|summary| - 1]) + summary[|summary| - 1].creditLimit
  }

  /** `get_report_summary`: the totals over the customer-distinct summary;
      the remaining total, accumulated entry by entry, is the limit total
      minus the used total. */
  method GetReportSummary(summary: seq<CustomerSummary>) returns (totals: Totals)
    ensures totals.totalUsed == SumUsed(summary)
    ensures totals.totalLimit == SumLimit(summary)
    ensures totals.totalRemaining == totals.totalLimit - totals.totalUsed
  {
    var totalUsed, totalLimit, totalRemaining := 0, 0, 0;
    for i := 0 to |summary|
      invariant totalUsed == SumUsed(summary[..i])
      invariant totalLimit == SumLimit(summary[..i])
      invariant totalRemaining == totalLimit - totalUsed
    {
      assert summary[..i + 1][..i] == summary[..i];
      var used := summary[i].usedCredit;
      var limit := summary[i].creditLimit;
      totalUsed := totalUsed + used;
      totalLimit := totalLimit + limit;
      totalRemaining := totalRemaining + (limit - used);
    }
    assert summary[..|summary|] == summary;
    totals := Totals(totalUsed, totalLimit, totalRemaining);
  }
}

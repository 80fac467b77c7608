/** The invoice-wise Temp Credit Status report
    (`report/temp_credit_status/temp_credit_status.py`): one row per unpaid
    invoice with its customer's limit, used and remaining credit repeated,
    one summary entry per distinct customer, a top-10 chart and the totals.

    The SQL and `frappe.get_all` reads are inputs: the unpaid invoices the
    query returns, the customer master map, the standard credit limits, the
    set of temp-credit customers and the customer policy rows. */
module TempCreditStatus {
  import opened Common
  import opened Sums
  import opened Ordering

  datatype Filters = Filters(
    company: string,
    creditType: string,        // "", "Temp Credit" or "Credit"
    showOnlyOverLimit: int,
    summaryMode: string)       // "Salesman Wise" or "Customer Wise"

  /** A row of the unpaid-invoice query. */
  datatype UnpaidInvoice = UnpaidInvoice(
    name: string,
    customer: string,
    postingDate: int,
    outstandingAmount: int,
    owner: string,
    salesmanName: string)

  datatype CustomerInfo = CustomerInfo(customerName: string, customerGroup: string, territory: string)

  /** A Temp Credit Customer Policy row as the report reads it. */
  datatype PolicyRow = PolicyRow(customer: string, enabled: int, creditLimitOverride: Option<int>)

  datatype CreditType = TempCredit | Credit

  datatype InvoiceRow = InvoiceRow(
    salesInvoice: string,
    postingDate: int,
    invoiceOutstanding: int,
    customer: string,
    customerName: string,
    customerGroup: string,
    territory: string,
    creditType: CreditType,
    salesmanUser: string,
    salesmanName: string,
    creditLimit: int,
    customerUsedCredit: int,
    remainingCredit: int)

  datatype CustomerSummary = CustomerSummary(
    customer: string,
    customerName: string,
    salesmanUser: string,
    salesmanName: string,
    creditLimit: int,
    usedCredit: int)

  /** Everything a row needs besides its invoice. */
  datatype Sources = Sources(
    customers: map<string, CustomerInfo>,
    creditLimits: map<string, int>,
    tempCustomers: set<string>,
    policies: map<string, PolicyRow>,
    defaultCustomerLimit: int)

  datatype Bar = Bar(name: string, used: int, limit: int)

  datatype Totals = Totals(totalUsed: int, totalLimit: int, totalRemaining: int)

  // ---------------- Policies ----------------

  /** `{r.customer: r}` over the enabled policy rows. */
  function EnabledPolicies(rows: seq<PolicyRow>): (m: map<string, PolicyRow>)
    ensures forall c :: c in m ==> m[c].customer == c && m[c].enabled != 0
  {
    if rows == [] then map[]
    else
      var r := rows[|rows| - 1];
      var m0 := EnabledPolicies(rows[..|rows| - 1]);
      if r.enabled == 0 then m0 else m0[r.customer := r]
  }

  /** Row `i` is enabled and no later enabled row names the same customer. */
  predicate LastEnabledAt(rows: seq<PolicyRow>, i: int) {
    && 0 <= i < |rows|
    && rows[i].enabled != 0
    && forall j :: i < j < |rows| && rows[j].customer == rows[i].customer ==> rows[j].enabled == 0
  }

  /** The policy kept for a customer is its last enabled row. */
  lemma {:induction false} EnabledPoliciesLastWins(rows: seq<PolicyRow>, i: int)
    requires LastEnabledAt(rows, i)
    ensures rows[i].customer in EnabledPolicies(rows) && EnabledPolicies(rows)[rows[i].customer] == rows[i]
  {
    var init, r := rows[..|rows| - 1], rows[|rows| - 1];
    var m0 := EnabledPolicies(init);
    assert EnabledPolicies(rows) == if r.enabled == 0 then m0 else m0[r.customer := r];
    if i < |init| {
      assert init[i] == rows[i];
      assert LastEnabledAt(init, i) by {
        forall j | i < j < |init| && init[j].customer == init[i].customer ensures init[j].enabled == 0 {
          assert init[j] == rows[j];
        }
      }
      EnabledPoliciesLastWins(init, i);
      assert r.enabled != 0 ==> r.customer != rows[i].customer;
    }
  }

  /** Only customers with an enabled row have a policy. */
  lemma {:induction false} EnabledPoliciesOnlyEnabled(rows: seq<PolicyRow>, c: string)
    requires c in EnabledPolicies(rows)
    ensures exists i :: LastEnabledAt(rows, i) && rows[i].customer == c
  {
    var init, r := rows[..|rows| - 1], rows[|rows| - 1];
    var m0 := EnabledPolicies(init);
    assert EnabledPolicies(rows) == if r.enabled == 0 then m0 else m0[r.customer := r];
    if r.enabled != 0 && r.customer == c {
      assert LastEnabledAt(rows, |rows| - 1);
    } else {
      EnabledPoliciesOnlyEnabled(init, c);
      var i :| LastEnabledAt(init, i) && init[i].customer == c;
      assert init[i] == rows[i];
      assert LastEnabledAt(rows, i) by {
        forall j | i < j < |rows| && rows[j].customer == c ensures rows[j].enabled == 0 {
          if j < |init| { assert init[j] == rows[j]; }
        }
      }
    }
  }

  /** `_get_policies_for_customers`: disabled policies are skipped. */
  method PoliciesForCustomers(customerNames: set<string>, rows: seq<PolicyRow>)
    returns (policies: map<string, PolicyRow>)
    ensures policies == if customerNames == {} then map[] else EnabledPolicies(rows)
    ensures forall c :: c in policies ==> policies[c].enabled != 0
  {
    policies := map[];
    if customerNames == {} {
      return;
    }
    for i := 0 to |rows|
      invariant policies == EnabledPolicies(rows[..i])
    {
      assert rows[..i + 1][..i] == rows[..i];
      var r := rows[i];
      if r.enabled == 0 {
        continue;
      }
      policies := policies[r.customer := r];
    }
    assert rows[..|rows|] == rows;
  }

  // ---------------- Customer totals ----------------

  /** What one customer owes over the fetched invoices. */
  function CustomerTotal(invoices: seq<UnpaidInvoice>, customer: string): int {
    if invoices == [] then 0
    else CustomerTotal(invoices[..|invoices| - 1], customer)
         + (if invoices[|invoices| - 1].customer == customer then invoices[|invoices| - 1].outstandingAmount else 0)
  }

  function InvoiceCustomers(invoices: seq<UnpaidInvoice>): set<string> {
    set i | 0 <= i < |invoices| :: invoices[i].customer
  }

  function CustomerTotals(invoices: seq<UnpaidInvoice>): map<string, int> {
    map c | c in InvoiceCustomers(invoices) :: CustomerTotal(invoices, c)
  }

  /** Step 5 of `get_data`: the `customer_outstanding` dictionary, summed
      over every fetched invoice before any filter is applied. */
  method CustomerOutstanding(invoices: seq<UnpaidInvoice>) returns (totals: map<string, int>)
    ensures totals == CustomerTotals(invoices)
  {
    totals := map[];
    for i := 0 to |invoices|
      invariant totals.Keys == InvoiceCustomers(invoices[..i])
      invariant forall c :: CustomerTotal(invoices[..i], c) == Get(totals, c)
    {
      var prefix := invoices[..i + 1];
      assert prefix[..i] == invoices[..i];
      assert InvoiceCustomers(prefix) == InvoiceCustomers(invoices[..i]) + {invoices[i].customer} by {
        forall c | c in InvoiceCustomers(prefix) ensures c in InvoiceCustomers(invoices[..i]) + {invoices[i].customer} {
          var k :| 0 <= k < i + 1 && prefix[k].customer == c;
          if k < i { assert invoices[..i][k].customer == c; }
        }
        forall c | c in InvoiceCustomers(invoices[..i]) ensures c in InvoiceCustomers(prefix) {
          var k :| 0 <= k < i && invoices[..i][k].customer == c;
          assert prefix[k].customer == c;
        }
        assert prefix[i].customer == invoices[i].customer;
      }
      var cust := invoices[i].customer;
      totals := totals[cust := Get(totals, cust) + invoices[i].outstandingAmount];
    }
    assert invoices[..|invoices|] == invoices;
    assert forall c :: c in totals ==> totals[c] == CustomerTotal(invoices, c);
  }

  // ---------------- Rows ----------------

  /** A temp customer's limit is its enabled policy's positive override,
      else the default; any other customer has its standard limit, or 0. */
  function CreditLimitFor(customer: string, isTemp: bool, src: Sources): (limit: int)
    ensures isTemp && customer in src.policies && OrZero(src.policies[customer].creditLimitOverride) > 0 ==>
              limit == OrZero(src.policies[customer].creditLimitOverride)
    ensures isTemp && !(customer in src.policies && OrZero(src.policies[customer].creditLimitOverride) > 0) ==>
              limit == src.defaultCustomerLimit
    ensures !isTemp ==> limit == Get(src.creditLimits, customer)
  {
    if isTemp then
      EffectiveFlt(if customer in src.policies then src.policies[customer].creditLimitOverride else None,
                   src.defaultCustomerLimit)
    else Get(src.creditLimits, customer)
  }

  /** The credit-type filter admits a customer of this kind and limit. */
  predicate TypeAdmits(creditTypeFilter: string, isTemp: bool, limit: int) {
    && !(creditTypeFilter == "Temp Credit" && !isTemp)
    && !(creditTypeFilter == "Credit" && (isTemp || limit <= 0))
  }

  /** The row `get_data` appends for one invoice, or `None` where its loop
      continues without one. */
  function RowFor(inv: UnpaidInvoice, filters: Filters, src: Sources, totals: map<string, int>): (row: Option<InvoiceRow>)
    ensures row.Some? ==> inv.customer in src.customers
    ensures row.Some? ==> && row.value.salesInvoice == inv.name
                          && row.value.customer == inv.customer
                          && row.value.postingDate == inv.postingDate
                          && row.value.invoiceOutstanding == inv.outstandingAmount
                          && row.value.customerName == src.customers[inv.customer].customerName
                          && row.value.customerGroup == src.customers[inv.customer].customerGroup
                          && row.value.territory == src.customers[inv.customer].territory
                          && row.value.customerUsedCredit == Get(totals, inv.customer)
                          && row.value.remainingCredit == row.value.creditLimit - row.value.customerUsedCredit
    ensures row.Some? ==> (row.value.creditType == TempCredit <==> inv.customer in src.tempCustomers)
    ensures row.Some? ==> row.value.creditLimit == CreditLimitFor(inv.customer, inv.customer in src.tempCustomers, src)
    ensures row.Some? && Strip(filters.creditType) == "Temp Credit" ==> row.value.creditType == TempCredit
    ensures row.Some? && Strip(filters.creditType) == "Credit" ==>
              row.value.creditType == Credit && row.value.creditLimit > 0
    ensures inv.customer in src.customers
            && TypeAdmits(Strip(filters.creditType), inv.customer in src.tempCustomers,
                          CreditLimitFor(inv.customer, inv.customer in src.tempCustomers, src))
            ==> (row.Some? <==> (|| filters.showOnlyOverLimit == 0
                                 || (var limit := CreditLimitFor(inv.customer, inv.customer in src.tempCustomers, src);
                                     limit > 0 && Get(totals, inv.customer) > limit)))
    ensures row.Some? ==> && row.value.salesmanUser == Strip(inv.owner)
                          && row.value.salesmanName == OrElse(Strip(inv.salesmanName), Strip(inv.owner))
  {
    var cust := inv.customer;
    if cust !in src.customers then None
    else
      var cdoc := src.customers[cust];
      var isTemp := cust in src.tempCustomers;
      var creditTypeFilter := Strip(filters.creditType);
      if creditTypeFilter == "Temp Credit" && !isTemp then None
      else if creditTypeFilter == "Credit" && isTemp then None
      else
        var creditLimit := CreditLimitFor(cust, isTemp, src);
        if creditTypeFilter == "Credit" && creditLimit <= 0 then None
        else
          var custUsed := Get(totals, cust);
          var remaining := creditLimit - custUsed;
          if filters.showOnlyOverLimit != 0 && creditLimit > 0 && custUsed <= creditLimit then None
          else if filters.showOnlyOverLimit != 0 && creditLimit <= 0 then None
          else
            var salesmanUser := Strip(inv.owner);
            var salesmanName := OrElse(Strip(inv.salesmanName), salesmanUser);
            Some(InvoiceRow(inv.name, inv.postingDate, inv.outstandingAmount, cust,
                            cdoc.customerName, cdoc.customerGroup, cdoc.territory,
                            if isTemp then TempCredit else Credit,
                            salesmanUser, salesmanName, creditLimit, custUsed, remaining))
  }

  /** The rows appended, in invoice order. */
  function KeptRows(invoices: seq<UnpaidInvoice>, filters: Filters, src: Sources, totals: map<string, int>): seq<InvoiceRow> {
    if invoices == [] then []
    else
      var init := KeptRows(invoices[..|invoices| - 1], filters, src, totals);
      match RowFor(invoices[|invoices| - 1], filters, src, totals)
      case Some(row) => init + [row]
      case None => init
  }

  function SummaryOf(row: InvoiceRow): CustomerSummary {
    CustomerSummary(row.customer, row.customerName, row.salesmanUser, row.salesmanName,
                    row.creditLimit, row.customerUsedCredit)
  }

  predicate HasCustomer(summary: seq<CustomerSummary>, customer: string) {
    exists e :: e in summary && e.customer == customer
  }

  predicate DistinctCustomers(summary: seq<CustomerSummary>) {
    forall i, j :: 0 <= i < j < |summary| ==> summary[i].customer != summary[j].customer
  }

  /** `customer_summary`: an entry for a customer is made from its first row only. */
  function Summaries(rows: seq<InvoiceRow>): seq<CustomerSummary> {
    if rows == [] then []
    else
      var init := Summaries(rows[..|rows| - 1]);
      var row := rows[|rows| - 1];
      if HasCustomer(init, row.customer) then init else init + [SummaryOf(row)]
  }

  /** `out.sort(key=(posting_date, sales_invoice), reverse=True)`: newest first,
      then by invoice name, descending. */
  predicate RowOrder(a: InvoiceRow, b: InvoiceRow) {
    a.postingDate > b.postingDate || (a.postingDate == b.postingDate && StrLe(b.salesInvoice, a.salesInvoice))
  }

  lemma RowOrderIsTotalPreorder()
    ensures TotalPreorder(RowOrder)
  {
    forall a, b ensures RowOrder(a, b) || RowOrder(b, a) {
      StrLeTotal(a.salesInvoice, b.salesInvoice);
    }
    forall a, b, c | RowOrder(a, b) && RowOrder(b, c) ensures RowOrder(a, c) {
      if a.postingDate == b.postingDate == c.postingDate {
        StrLeTransitive(c.salesInvoice, b.salesInvoice, a.salesInvoice);
      }
    }
  }

  function NamedCustomers(invoices: seq<UnpaidInvoice>): set<string> {
    set i | 0 <= i < |invoices| && invoices[i].customer != "" :: invoices[i].customer
  }

  function SourcesOf(customers: map<string, CustomerInfo>, creditLimits: map<string, int>, tempCustomers: set<string>,
                     policyRows: seq<PolicyRow>, defaultCustomerLimit: int): Sources {
    Sources(customers, creditLimits, tempCustomers, EnabledPolicies(policyRows), defaultCustomerLimit)
  }

  /** The row loop of `get_data`: every invoice's row, when it has one,
      and a summary entry for each customer's first row. */
  method BuildRows(invoices: seq<UnpaidInvoice>, filters: Filters, src: Sources, totals: map<string, int>)
    returns (out: seq<InvoiceRow>, summary: seq<CustomerSummary>)
    ensures out == KeptRows(invoices, filters, src, totals)
    ensures summary == Summaries(out)
  {
    out, summary := [], [];
    for i := 0 to |invoices|
      invariant out == KeptRows(invoices[..i], filters, src, totals)
      invariant summary == Summaries(out)
    {
      assert invoices[..i + 1][..i] == invoices[..i];
      var row := RowFor(invoices[i], filters, src, totals);
      if row.None? {
        continue;
      }
      out := out + [row.value];
      if !HasCustomer(summary, row.value.customer) {
        summary := summary + [SummaryOf(row.value)];
      }
      assert out[..|out| - 1] == KeptRows(invoices[..i], filters, src, totals);
    }
    assert invoices[..|invoices|] == invoices;
  }

  /** `get_data` after its reads: the sorted invoice rows and the
      per-customer summary. */
  method GetData(filters: Filters, defaultCustomerLimit: int, invoices: seq<UnpaidInvoice>,
                 customers: map<string, CustomerInfo>, creditLimits: map<string, int>,
                 tempCustomers: set<string>, policyRows: seq<PolicyRow>)
    returns (out: seq<InvoiceRow>, summary: seq<CustomerSummary>)
    ensures Strip(filters.company) == "" || NamedCustomers(invoices) == {} ==> out == [] && summary == []
    ensures Strip(filters.company) != "" && NamedCustomers(invoices) != {} ==>
              var src := SourcesOf(customers, creditLimits, tempCustomers, policyRows, defaultCustomerLimit);
              var kept := KeptRows(invoices, filters, src, CustomerTotals(invoices));
              out == SortBy(kept, RowOrder) && summary == Summaries(kept)
    ensures SortedBy(out, RowOrder)
  {
    var company := Strip(filters.company);
    if company == "" {
      return [], [];
    }
    if invoices == [] {
      return [], [];
    }
    var customersList := NamedCustomers(invoices);
    if customersList == {} {
      return [], [];
    }
    var policies := PoliciesForCustomers(customersList, policyRows);
    var src := Sources(customers, creditLimits, tempCustomers, policies, defaultCustomerLimit);
    var totals := CustomerOutstanding(invoices);

    out, summary := BuildRows(invoices, filters, src, totals);
    out := SortBy(out, RowOrder);
    RowOrderIsTotalPreorder();
  }

  // ---------------- Properties of the rows and the summary ----------------

  /** Every row comes from one of the invoices. */
  lemma {:induction false} KeptRowOrigin(invoices: seq<UnpaidInvoice>, filters: Filters, src: Sources,
                                         totals: map<string, int>, row: InvoiceRow)
    requires row in KeptRows(invoices, filters, src, totals)
    ensures exists k :: 0 <= k < |invoices| && RowFor(invoices[k], filters, src, totals) == Some(row)
  {
    var init := invoices[..|invoices| - 1];
    var last := invoices[|invoices| - 1];
    if row !in KeptRows(init, filters, src, totals) {
      assert RowFor(last, filters, src, totals) == Some(row);
    } else {
      KeptRowOrigin(init, filters, src, totals, row);
      var k :| 0 <= k < |init| && RowFor(init[k], filters, src, totals) == Some(row);
      assert init[k] == invoices[k];
    }
  }

  /** Every invoice that passes the filters has its row. */
  lemma {:induction false} KeptRowComplete(invoices: seq<UnpaidInvoice>, filters: Filters, src: Sources,
                                           totals: map<string, int>, k: int)
    requires 0 <= k < |invoices| && RowFor(invoices[k], filters, src, totals).Some?
    ensures RowFor(invoices[k], filters, src, totals).value in KeptRows(invoices, filters, src, totals)
  {
    var init := invoices[..|invoices| - 1];
    if k < |init| {
      assert init[k] == invoices[k];
      KeptRowComplete(init, filters, src, totals, k);
    }
  }

  /** Each row repeats its customer's outstanding over every fetched
      invoice, kept or not, and its remaining credit is limit minus that. */
  lemma RowsCarryCustomerTotals(invoices: seq<UnpaidInvoice>, filters: Filters, src: Sources, row: InvoiceRow)
    requires row in KeptRows(invoices, filters, src, CustomerTotals(invoices))
    ensures row.customerUsedCredit == CustomerTotal(invoices, row.customer)
    ensures row.remainingCredit == row.creditLimit - CustomerTotal(invoices, row.customer)
  {
    KeptRowOrigin(invoices, filters, src, CustomerTotals(invoices), row);
    var k :| 0 <= k < |invoices| && RowFor(invoices[k], filters, src, CustomerTotals(invoices)) == Some(row);
    assert invoices[k].customer in InvoiceCustomers(invoices);
  }

  /** With "show only over limit" set, every row's customer has a positive
      limit and uses more than it. */
  lemma {:induction false} RowsOverLimitWhenAsked(invoices: seq<UnpaidInvoice>, filters: Filters, src: Sources,
                               totals: map<string, int>, row: InvoiceRow)
    requires filters.showOnlyOverLimit != 0
    requires row in KeptRows(invoices, filters, src, totals)
    ensures row.creditLimit > 0 && row.customerUsedCredit > row.creditLimit
  {
    KeptRowOrigin(invoices, filters, src, totals, row);
  }

  /** Row `i` is the first row for its customer. */
  predicate FirstRowFor(rows: seq<InvoiceRow>, i: int) {
    0 <= i < |rows| && forall j :: 0 <= j < i ==> rows[j].customer != rows[i].customer
  }

  /** The summary never holds two entries for one customer. */
  lemma {:induction false} SummariesDistinct(rows: seq<InvoiceRow>)
    ensures DistinctCustomers(Summaries(rows))
  {
    if rows != [] {
      var init, row := rows[..|rows| - 1], rows[|rows| - 1];
      var s0 := Summaries(init);
      SummariesDistinct(init);
      if !HasCustomer(s0, row.customer) {
        var s := s0 + [SummaryOf(row)];
        forall i, j | 0 <= i < j < |s| ensures s[i].customer != s[j].customer {
          if j == |s0| { assert s[i] in s0; }
        }
      }
    }
  }

  /** A customer has a summary entry exactly when it has a row. */
  lemma {:induction false} SummariesCoverRows(rows: seq<InvoiceRow>, c: string)
    ensures HasCustomer(Summaries(rows), c) <==> exists i :: 0 <= i < |rows| && rows[i].customer == c
  {
    if rows != [] {
      var init, row := rows[..|rows| - 1], rows[|rows| - 1];
      SummariesCoverRows(init, c);
      if exists i :: 0 <= i < |rows| && rows[i].customer == c {
        var i :| 0 <= i < |rows| && rows[i].customer == c;
        if i < |init| {
          assert init[i] == rows[i];
        } else {
          SummariesCoverRows(init, row.customer);
          assert SummaryOf(row).customer == c;
        }
      }
      if HasCustomer(Summaries(init), c) {
        var i :| 0 <= i < |init| && init[i].customer == c;
        assert rows[i] == init[i];
      }
    }
  }

  /** Each summary entry is made from its customer's first row. */
  lemma {:induction false} SummariesFromFirstRows(rows: seq<InvoiceRow>, e: CustomerSummary)
    requires e in Summaries(rows)
    ensures exists i :: FirstRowFor(rows, i) && e == SummaryOf(rows[i])
  {
    var init, row := rows[..|rows| - 1], rows[|rows| - 1];
    var s0 := Summaries(init);
    if e in s0 {
      SummariesFromFirstRows(init, e);
      var i :| FirstRowFor(init, i) && e == SummaryOf(init[i]);
      assert init[i] == rows[i];
      assert FirstRowFor(rows, i) by {
        forall j | 0 <= j < i ensures rows[j].customer != rows[i].customer {
          assert init[j] == rows[j];
        }
      }
    } else {
      assert !HasCustomer(s0, row.customer) && e == SummaryOf(row);
      SummariesCoverRows(init, row.customer);
      assert FirstRowFor(rows, |rows| - 1) by {
        forall j | 0 <= j < |rows| - 1 ensures rows[j].customer != row.customer {
          assert init[j] == rows[j];
        }
      }
    }
  }
}

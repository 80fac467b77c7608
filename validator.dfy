/** The temporary-credit gate run when a Sales Invoice is validated or
    submitted (`services/temp_credit_validator.py`).

    Every database read of the original is an input here: the settings
    record, the customer's payment-type field, the customer and salesman
    policies and the rows each outstanding-amount query returns are carried
    by `Settings` and `Lookups`. Raising an error becomes an `Outcome`
    variant; an allowed invoice carries the figures of the information popup. */
module TempCreditValidator {
  import opened Common
  import opened Sums

  /** The fields of the Sales Invoice document the gate reads. A missing
      text field is the empty string. */
  datatype SalesInvoice = SalesInvoice(
    doctype: string,
    docstatus: int,            // 0 draft, 1 submitted, 2 cancelled
    isReturn: int,
    customer: string,
    outstandingAmount: int,
    grandTotal: int,
    setWarehouse: string,
    itemWarehouses: seq<string>,  // the warehouse of each item row, in order
    owner: string)

  /** The Temp Credit Settings single, as its reader normalises it. */
  datatype Settings = Settings(
    enabled: bool,
    defaultCustomerLimit: int,
    defaultMaxUnpaidInvoices: int,
    defaultWarehouseLimit: int,
    showPopupOnAllow: bool,
    enableWarehouseLimit: bool,
    enableSalesmanLimit: bool,
    defaultSalesmanLimit: int,
    customerTcFieldname: string,
    tempCreditValue: string)

  /** A Temp Credit Customer Policy row. A nullable number is `None`; for
      `maxUnpaidInvoicesOverride`, `None` is any value `int()` rejects. */
  datatype CustomerPolicy = CustomerPolicy(
    enabled: int,
    creditLimitOverride: Option<int>,
    maxUnpaidInvoicesOverride: Option<int>,
    isBlacklisted: int,
    blacklistReason: string)

  /** A Temp Credit Salesman Policy row. */
  datatype SalesmanPolicy = SalesmanPolicy(
    enabled: int,
    maxOutstandingLimit: Option<int>,
    isBlocked: int,
    blockReason: string)

  /** A submitted, unpaid, non-return invoice of a temp-credit customer. */
  datatype BaseInvoice = BaseInvoice(name: string, outstandingAmount: int, setWarehouse: string)

  /** What the database answers to each query the gate issues. */
  datatype Lookups = Lookups(
    sessionUser: string,
    customerPaymentType: string,           // the customer's payment-type field ("" when unset)
    customerPolicy: Option<CustomerPolicy>,
    customerInvoices: seq<int>,            // outstanding of the customer's unpaid invoices
    tempCreditCustomers: seq<string>,      // names of all temp-credit customers
    baseInvoices: seq<BaseInvoice>,        // their unpaid invoices
    warehouseItemParents: seq<string>,     // parents of item rows in the invoice's warehouse
    salesmanPolicy: Option<SalesmanPolicy>,
    salesmanInvoices: seq<int>)            // outstanding of the salesman's temp-credit invoices

  datatype Title =
    | LimitExceededTitle
    | CustomerAndWarehouseTitle
    | WarehouseTitle
    | SalesmanTitle

  /** A limit pool: whose it is, what it holds including this invoice, its limit. */
  datatype Pool = Pool(owner: string, outstanding: int, limit: int)

  /** The figures the error or popup message reports. */
  datatype Figures = Figures(
    currentAmount: int,
    invoiceCount: int,
    totalOutstanding: int,
    maxInvoices: int,
    maxCredit: int,
    warehouse: Option<Pool>,
    salesman: Option<Pool>)

  datatype Outcome =
    | NotApplicable
    | CustomerBlacklisted(customer: string, reason: string)
    | SalesmanBlocked(user: string, reason: string)
    | LimitExceeded(title: Title, figures: Figures)
    | Allowed(showPopup: bool, figures: Figures)

  const DefaultTcValue := "Temp Credit"
  const DefaultBlacklistReason := "Customer is blacklisted for Temp Credit."
  const DefaultBlockReason := "Salesman blocked for Temp Credit."

  function TitleText(t: Title): string {
    match t
    case LimitExceededTitle => "\U{274C} Temp Credit Limit Exceeded!"
    case CustomerAndWarehouseTitle => "\U{274C} Customer & Warehouse Temp Credit Limits Exceeded!"
    case WarehouseTitle => "\U{274C} Warehouse Temp Credit Limit Exceeded!"
    case SalesmanTitle => "\U{274C} Salesman Temp Credit Limit Exceeded!"
  }

  // ---------------- Helpers ----------------

  /** `_effective_int(override, default)`: an override `int()` cannot
      convert counts as 0; a positive override wins, otherwise the default. */
  function EffectiveInt(overrideValue: Option<int>, defaultValue: int): (r: int)
    ensures r > 0 || r == defaultValue
    ensures overrideValue.Some? && overrideValue.value > 0 ==> r == overrideValue.value
    ensures (overrideValue.None? || overrideValue.value <= 0) ==> r == defaultValue
  {
    var ov := match overrideValue case Some(v) => v case None => 0;
    if ov > 0 then ov else defaultValue
  }

  /** `_customer_outstanding`: how many unpaid invoices the customer has and
      what they still owe in total. */
  method CustomerOutstanding(invoices: seq<int>) returns (invoiceCount: nat, totalOutstanding: int)
    ensures invoiceCount == |invoices|
    ensures totalOutstanding == Sum(invoices)
  {
    invoiceCount, totalOutstanding := 0, 0;
    for i := 0 to |invoices|
      invariant invoiceCount == i
      invariant totalOutstanding == Sum(invoices[..i])
    {
      assert invoices[..i + 1][..i] == invoices[..i];
      invoiceCount := invoiceCount + 1;
      totalOutstanding := totalOutstanding + invoices[i];
    }
    assert invoices[..|invoices|] == invoices;
  }

  /** `inv_out`: invoice name to outstanding amount. */
  function InvoiceEntries(base: seq<BaseInvoice>): (es: seq<Entry>)
    ensures |es| == |base|
    ensures forall i :: 0 <= i < |base| ==> es[i] == Entry(base[i].name, base[i].outstandingAmount)
  {
    if base == [] then []
    else InvoiceEntries(base[..|base| - 1]) + [Entry(base[|base| - 1].name, base[|base| - 1].outstandingAmount)]
  }

  /** Invoices whose header warehouse is `warehouse` (both sides stripped). */
  function HeaderMatch(base: seq<BaseInvoice>, warehouse: string): set<string> {
    set i | 0 <= i < |base| && Strip(base[i].setWarehouse) == Strip(warehouse) :: base[i].name
  }

  /** Invoices with an item row in the warehouse. */
  function ItemMatch(itemParents: seq<string>): set<string> {
    set p | p in itemParents
  }

  /** The warehouse pool as `_warehouse_tc_outstanding` totals it: the union
      of header-matched and item-matched invoice names, each summed once. */
  ghost function WarehouseTotal(warehouse: string, tcCustomers: seq<string>,
                                base: seq<BaseInvoice>, itemParents: seq<string>): int
  {
    if tcCustomers == [] || base == [] then 0
    else SetSum(HeaderMatch(base, warehouse) + ItemMatch(itemParents), MapOf(InvoiceEntries(base)))
  }

  /** `_warehouse_tc_outstanding`. */
  method WarehouseTcOutstanding(warehouse: string, tcCustomers: seq<string>,
                                base: seq<BaseInvoice>, itemParents: seq<string>) returns (total: int)
    ensures total == WarehouseTotal(warehouse, tcCustomers, base, itemParents)
    ensures tcCustomers == [] || base == [] ==> total == 0
  {
    if tcCustomers == [] {
      return 0;
    }
    if base == [] {
      return 0;
    }
    var invOut := MapOf(InvoiceEntries(base));
    var headerMatch := HeaderMatch(base, warehouse);
    var itemMatch := ItemMatch(itemParents);
    var matched := headerMatch + itemMatch;
    total := 0;
    var pending := matched;
    while pending != {}
      invariant pending <= matched
      invariant total + SetSum(pending, invOut) == SetSum(matched, invOut)
      decreases pending
    {
      var name :| name in pending;
      SetSumRemove(pending, name, invOut);
      total := total + Get(invOut, name);
      pending := pending - {name};
    }
  }

  /** `_salesman_tc_outstanding`: what the salesman's temp-credit invoices still owe. */
  method SalesmanTcOutstanding(tcCustomers: seq<string>, rows: seq<int>) returns (total: int)
    ensures total == if tcCustomers == [] then 0 else Sum(rows)
  {
    if tcCustomers == [] {
      return 0;
    }
    total := 0;
    for i := 0 to |rows|
      invariant total == Sum(rows[..i])
    {
      assert rows[..i + 1][..i] == rows[..i];
      total := total + rows[i];
    }
    assert rows[..|rows|] == rows;
  }

  // ---------------- The rule, stated ----------------

  function TempCreditValue(settings: Settings): string {
    OrElse(settings.tempCreditValue, DefaultTcValue)
  }

  /** The guard clauses: the rule looks at this invoice at all. */
  predicate Applies(doc: SalesInvoice, settings: Settings, lk: Lookups) {
    && doc.doctype == "Sales Invoice"
    && doc.docstatus != 2
    && doc.isReturn != 1
    && doc.customer != ""
    && settings.enabled
    && Strip(lk.customerPaymentType) == Strip(TempCreditValue(settings))
    && !(lk.customerPolicy.Some? && lk.customerPolicy.value.enabled == 0)
  }

  predicate Blacklisted(policy: Option<CustomerPolicy>) {
    policy.Some? && policy.value.isBlacklisted == 1
  }

  function BlacklistReason(policy: CustomerPolicy): string {
    OrElse(Strip(policy.blacklistReason), DefaultBlacklistReason)
  }

  function MaxInvoices(settings: Settings, lk: Lookups): int {
    EffectiveInt(if lk.customerPolicy.Some? then lk.customerPolicy.value.maxUnpaidInvoicesOverride else None,
                 settings.defaultMaxUnpaidInvoices)
  }

  function MaxCredit(settings: Settings, lk: Lookups): int {
    EffectiveFlt(if lk.customerPolicy.Some? then lk.customerPolicy.value.creditLimitOverride else None,
                 settings.defaultCustomerLimit)
  }

  /** The amount this invoice adds: its outstanding, or its grand total when that is 0. */
  function CurrentAmount(doc: SalesInvoice): int {
    if doc.outstandingAmount != 0 then doc.outstandingAmount else doc.grandTotal
  }

  /** Only a draft is not yet among the stored invoices, so only a draft is added. */
  function DraftAmount(doc: SalesInvoice): int {
    if doc.docstatus == 0 then CurrentAmount(doc) else 0
  }

  function InvoiceCount(doc: SalesInvoice, lk: Lookups): int {
    |lk.customerInvoices| + (if doc.docstatus == 0 then 1 else 0)
  }

  function TotalOutstanding(doc: SalesInvoice, lk: Lookups): int {
    Sum(lk.customerInvoices) + DraftAmount(doc)
  }

  predicate CustomerExceeded(doc: SalesInvoice, settings: Settings, lk: Lookups) {
    InvoiceCount(doc, lk) > MaxInvoices(settings, lk) || TotalOutstanding(doc, lk) > MaxCredit(settings, lk)
  }

  /** The header warehouse, else the first item's. */
  function InvoiceWarehouse(doc: SalesInvoice): string {
    if doc.setWarehouse != "" then doc.setWarehouse
    else if doc.itemWarehouses != [] then doc.itemWarehouses[0]
    else ""
  }

  ghost function WarehousePool(doc: SalesInvoice, settings: Settings, lk: Lookups): Option<Pool> {
    if settings.enableWarehouseLimit && InvoiceWarehouse(doc) != "" then
      Some(Pool(InvoiceWarehouse(doc),
                WarehouseTotal(InvoiceWarehouse(doc), lk.tempCreditCustomers, lk.baseInvoices,
                               lk.warehouseItemParents) + DraftAmount(doc),
                settings.defaultWarehouseLimit))
    else None
  }

  function SalesmanUser(doc: SalesInvoice, lk: Lookups): string {
    OrElse(doc.owner, lk.sessionUser)
  }

  predicate SalesmanPolicyActive(sp: Option<SalesmanPolicy>) {
    sp.Some? && sp.value.enabled == 1
  }

  predicate SalesmanBlockedBy(settings: Settings, lk: Lookups) {
    settings.enableSalesmanLimit && SalesmanPolicyActive(lk.salesmanPolicy) && lk.salesmanPolicy.value.isBlocked == 1
  }

  function BlockReason(sp: SalesmanPolicy): string {
    OrElse(Strip(sp.blockReason), DefaultBlockReason)
  }

  /** An active policy's limit is taken as it is (0 switches the check off);
      without one the default applies. */
  function SalesmanLimit(settings: Settings, lk: Lookups): int {
    if SalesmanPolicyActive(lk.salesmanPolicy) then OrZero(lk.salesmanPolicy.value.maxOutstandingLimit)
    else settings.defaultSalesmanLimit
  }

  function SalesmanPool(doc: SalesInvoice, settings: Settings, lk: Lookups): Option<Pool> {
    if settings.enableSalesmanLimit && SalesmanLimit(settings, lk) > 0 then
      Some(Pool(SalesmanUser(doc, lk),
                (if lk.tempCreditCustomers == [] then 0 else Sum(lk.salesmanInvoices)) + DraftAmount(doc),
                SalesmanLimit(settings, lk)))
    else None
  }

  /** A pool is over its limit only when it holds strictly more. */
  predicate OverLimit(pool: Option<Pool>) {
    pool.Some? && pool.value.outstanding > pool.value.limit
  }

  ghost function ExpectedFigures(doc: SalesInvoice, settings: Settings, lk: Lookups): Figures {
    Figures(CurrentAmount(doc), InvoiceCount(doc, lk), TotalOutstanding(doc, lk),
            MaxInvoices(settings, lk), MaxCredit(settings, lk),
            WarehousePool(doc, settings, lk), SalesmanPool(doc, settings, lk))
  }

  /** The error title, by fixed priority. */
  function TitleFor(customer: bool, warehouse: bool, salesman: bool): Title {
    if customer && warehouse then CustomerAndWarehouseTitle
    else if warehouse then WarehouseTitle
    else if salesman then SalesmanTitle
    else LimitExceededTitle
  }

  // ---------------- The rule ----------------

  /** Section 2 of `apply_temp_credit_rules`: the warehouse pool, when the
      warehouse limit is on and the invoice names a warehouse. */
  method WarehouseLevel(doc: SalesInvoice, settings: Settings, lk: Lookups, currentAmount: int)
    returns (warehousePool: Option<Pool>)
    requires currentAmount == CurrentAmount(doc)
    ensures warehousePool == WarehousePool(doc, settings, lk)
  {
    warehousePool := None;
    if settings.enableWarehouseLimit {
      var warehouse := doc.setWarehouse;
      if warehouse == "" && doc.itemWarehouses != [] {
        warehouse := doc.itemWarehouses[0];
      }
      if warehouse != "" {
        var whLimit := settings.defaultWarehouseLimit;
        var whOutstanding := WarehouseTcOutstanding(warehouse, lk.tempCreditCustomers, lk.baseInvoices,
                                                    lk.warehouseItemParents);
        if doc.docstatus == 0 {
          whOutstanding := whOutstanding + currentAmount;
        }
        assert warehouse == InvoiceWarehouse(doc);
        assert whOutstanding == WarehouseTotal(InvoiceWarehouse(doc), lk.tempCreditCustomers, lk.baseInvoices,
                               lk.warehouseItemParents) + DraftAmount(doc);
        warehousePool := Some(Pool(warehouse, whOutstanding, whLimit));
      }
    }
  }

  /** Section 3 of `apply_temp_credit_rules`: an active, blocked salesman
      policy stops the invoice (the reason is returned); otherwise the
      salesman pool, when the check is on and the limit is positive. */
  method SalesmanLevel(doc: SalesInvoice, settings: Settings, lk: Lookups, currentAmount: int)
    returns (blocked: Option<string>, salesmanPool: Option<Pool>)
    requires currentAmount == CurrentAmount(doc)
    ensures blocked.Some? <==> SalesmanBlockedBy(settings, lk)
    ensures blocked.Some? ==> blocked.value == BlockReason(lk.salesmanPolicy.value)
    ensures blocked.None? ==> salesmanPool == SalesmanPool(doc, settings, lk)
  {
    blocked, salesmanPool := None, None;
    if settings.enableSalesmanLimit {
      var user := OrElse(doc.owner, lk.sessionUser);
      var sp := lk.salesmanPolicy;
      var salesmanLimit: int;
      if sp.Some? && sp.value.enabled == 1 {
        if sp.value.isBlocked == 1 {
          var reason := OrElse(Strip(sp.value.blockReason), DefaultBlockReason);
          return Some(reason), None;
        }
        salesmanLimit := OrZero(sp.value.maxOutstandingLimit);
      } else {
        salesmanLimit := settings.defaultSalesmanLimit;
      }
      if salesmanLimit > 0 {
        var used := SalesmanTcOutstanding(lk.tempCreditCustomers, lk.salesmanInvoices);
        if doc.docstatus == 0 {
          used := used + currentAmount;
        }
        salesmanPool := Some(Pool(user, used, salesmanLimit));
      }
    }
  }

  /** Section 4 of `apply_temp_credit_rules`: block when any pool is strictly
      over its limit, titled by fixed priority; otherwise allow. */
  function FinalCheck(customerExceeded: bool, figures: Figures, showPopup: bool): (outcome: Outcome)
    ensures outcome.LimitExceeded? <==> customerExceeded || OverLimit(figures.warehouse) || OverLimit(figures.salesman)
    ensures outcome.LimitExceeded? ==> outcome.figures == figures
    ensures outcome.LimitExceeded? && OverLimit(figures.warehouse) ==>
              outcome.title == (if customerExceeded then CustomerAndWarehouseTitle else WarehouseTitle)
    ensures outcome.LimitExceeded? && !OverLimit(figures.warehouse) ==>
              outcome.title == (if OverLimit(figures.salesman) then SalesmanTitle else LimitExceededTitle)
    ensures !outcome.LimitExceeded? ==> outcome == Allowed(showPopup, figures)
  {
    var warehouseExceeded := OverLimit(figures.warehouse);
    var salesmanExceeded := OverLimit(figures.salesman);
    if customerExceeded || warehouseExceeded || salesmanExceeded then
      LimitExceeded(TitleFor(customerExceeded, warehouseExceeded, salesmanExceeded), figures)
    else
      Allowed(showPopup, figures)
  }

  /** `apply_temp_credit_rules`. */
  method ApplyTempCreditRules(doc: SalesInvoice, settings: Settings, lk: Lookups) returns (outcome: Outcome)
    ensures outcome.NotApplicable? <==> !Applies(doc, settings, lk)
    ensures Applies(doc, settings, lk) && Blacklisted(lk.customerPolicy) ==>
              outcome == CustomerBlacklisted(doc.customer, BlacklistReason(lk.customerPolicy.value))
    ensures Applies(doc, settings, lk) && !Blacklisted(lk.customerPolicy) && SalesmanBlockedBy(settings, lk) ==>
              outcome == SalesmanBlocked(SalesmanUser(doc, lk), BlockReason(lk.salesmanPolicy.value))
    ensures Applies(doc, settings, lk) && !Blacklisted(lk.customerPolicy) && !SalesmanBlockedBy(settings, lk) ==>
              outcome == FinalCheck(CustomerExceeded(doc, settings, lk), ExpectedFigures(doc, settings, lk),
                                    settings.showPopupOnAllow)
  {
    if doc.doctype != "Sales Invoice" {
      return NotApplicable;
    }
    if doc.docstatus == 2 {
      return NotApplicable;
    }
    if doc.isReturn == 1 {
      return NotApplicable;
    }
    var customer := doc.customer;
    if customer == "" {
      return NotApplicable;
    }
    if !settings.enabled {
      return NotApplicable;
    }
    var tcValue := TempCreditValue(settings);
    if Strip(lk.customerPaymentType) != Strip(tcValue) {
      return NotApplicable;
    }

    var policy := lk.customerPolicy;
    if policy.Some? && policy.value.enabled == 0 {
      return NotApplicable;
    }
    if policy.Some? && policy.value.isBlacklisted == 1 {
      var reason := OrElse(Strip(policy.value.blacklistReason), DefaultBlacklistReason);
      return CustomerBlacklisted(customer, reason);
    }

    var maxInvoices := EffectiveInt(if policy.Some? then policy.value.maxUnpaidInvoicesOverride else None,
                                    settings.defaultMaxUnpaidInvoices);
    var maxCredit := EffectiveFlt(if policy.Some? then policy.value.creditLimitOverride else None,
                                  settings.defaultCustomerLimit);

    // 1) customer level
    var invoiceCount, totalOutstanding := CustomerOutstanding(lk.customerInvoices);
    var currentAmount := if doc.outstandingAmount != 0 then doc.outstandingAmount else doc.grandTotal;
    if doc.docstatus == 0 {
      invoiceCount := invoiceCount + 1;
      totalOutstanding := totalOutstanding + currentAmount;
    }

    // 2) warehouse level
    var warehousePool := WarehouseLevel(doc, settings, lk, currentAmount);

    // 3) salesman level
    var blocked, salesmanPool := SalesmanLevel(doc, settings, lk, currentAmount);
    if blocked.Some? {
      return SalesmanBlocked(OrElse(doc.owner, lk.sessionUser), blocked.value);
    }

    // 4) final check
    var customerLimitExceeded := invoiceCount > maxInvoices || totalOutstanding > maxCredit;
    assert maxInvoices == MaxInvoices(settings, lk) && maxCredit == MaxCredit(settings, lk);
    assert invoiceCount == InvoiceCount(doc, lk) && totalOutstanding == TotalOutstanding(doc, lk);
    assert customerLimitExceeded == CustomerExceeded(doc, settings, lk);
    var figures := Figures(currentAmount, invoiceCount, totalOutstanding, maxInvoices, maxCredit,
                           warehousePool, salesmanPool);
    assert figures == ExpectedFigures(doc, settings, lk);
    outcome := FinalCheck(customerLimitExceeded, figures, settings.showPopupOnAllow);
  }
}

/** Properties of the gate that relate several invoices or several calls. */
module TempCreditValidatorFacts {
  import opened Common
  import opened Sums
  import opened TempCreditValidator

  predicate DistinctNames(base: seq<BaseInvoice>) {
    forall i, j :: 0 <= i < j < |base| ==> base[i].name != base[j].name
  }

  /** An invoice belongs to the warehouse pool by its header or by an item row. */
  predicate Matches(b: BaseInvoice, warehouse: string, itemParents: seq<string>) {
    Strip(b.setWarehouse) == Strip(warehouse) || b.name in itemParents
  }

  /** The outstanding of the matching invoices, each invoice taken once. */
  function MatchedSum(base: seq<BaseInvoice>, warehouse: string, itemParents: seq<string>): int {
    if base == [] then 0
    else MatchedSum(base[..|base| - 1], warehouse, itemParents)
         + (if Matches(base[|base| - 1], warehouse, itemParents) then base[|base| - 1].outstandingAmount else 0)
  }

  lemma {:induction false} SumWhereIsMatchedSum(bs: seq<BaseInvoice>, names: set<string>,
                                                warehouse: string, itemParents: seq<string>)
    requires forall i :: 0 <= i < |bs| ==> (bs[i].name in names <==> Matches(bs[i], warehouse, itemParents))
    ensures SumWhere(InvoiceEntries(bs), names) == MatchedSum(bs, warehouse, itemParents)
  {
    if bs != [] {
      var init := bs[..|bs| - 1];
      assert InvoiceEntries(bs)[..|bs| - 1] == InvoiceEntries(init);
      SumWhereIsMatchedSum(init, names, warehouse, itemParents);
    }
  }

  /** The warehouse pool counts every unpaid temp-credit invoice that matches
      by header or by item exactly once, even when it matches both ways or
      has several items in the warehouse. */
  lemma WarehouseCountsEachInvoiceOnce(warehouse: string, tcCustomers: seq<string>,
                                       base: seq<BaseInvoice>, itemParents: seq<string>)
    requires tcCustomers != [] && DistinctNames(base)
    ensures WarehouseTotal(warehouse, tcCustomers, base, itemParents) == MatchedSum(base, warehouse, itemParents)
  {
    if base != [] {
      var es := InvoiceEntries(base);
      var names := HeaderMatch(base, warehouse) + ItemMatch(itemParents);
      SetSumOfDistinct(es, names);
      forall i | 0 <= i < |base| ensures base[i].name in names <==> Matches(base[i], warehouse, itemParents) {
        if base[i].name in HeaderMatch(base, warehouse) {
          var j :| 0 <= j < |base| && Strip(base[j].setWarehouse) == Strip(warehouse) && base[j].name == base[i].name;
          assert i == j;
        }
      }
      SumWhereIsMatchedSum(base, names, warehouse, itemParents);
    }
  }

  /** One more unpaid invoice of the customer never turns a blocked invoice
      into an allowed one. */
  lemma MoreInvoicesNeverUnblock(doc: SalesInvoice, settings: Settings, lk: Lookups, amount: int)
    requires amount >= 0
    ensures var lk' := lk.(customerInvoices := lk.customerInvoices + [amount]);
            FinalCheck(CustomerExceeded(doc, settings, lk), ExpectedFigures(doc, settings, lk), settings.showPopupOnAllow).LimitExceeded? ==>
            FinalCheck(CustomerExceeded(doc, settings, lk'), ExpectedFigures(doc, settings, lk'), settings.showPopupOnAllow).LimitExceeded?
  {
  }
}

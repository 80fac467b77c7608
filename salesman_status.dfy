/** The Temp Credit Salesman Status report
    (`report/temp_credit_salesman_status/temp_credit_salesman_status.py`):
    one row per salesman with the temp-credit outstanding of their unpaid
    invoices, their limit, what remains, whether they are over the limit or
    blocked, a top-10 chart and three totals.

    The grouped SQL query, the temp-credit customer list, the salesman
    policies and the user names are inputs. */
module SalesmanStatus {
  import opened Common
  import opened Ordering

  const TopCount := 10

  datatype SalesmanFilters = SalesmanFilters(
    company: string,
    showOnlyOverLimit: int,   // `flt(... or 0)`; the flag is on when it equals 1
    showBlockedOnly: int)

  /** One row of the grouped query: a salesman's unpaid temp-credit invoices. */
  datatype GroupRow = GroupRow(
    salesmanUser: string,
    unpaidInvoices: nat,
    usedCredit: Option<int>,
    tempCustomers: nat)

  /** A Temp Credit Salesman Policy record; `None` stands for a null field. */
  datatype PolicyRow = PolicyRow(
    user: string,
    enabled: Option<int>,
    maxOutstandingLimit: Option<int>,
    isBlocked: Option<int>,
    blockReason: string)

  datatype UserRow = UserRow(name: string, fullName: string)

  datatype SalesmanRow = SalesmanRow(
    salesmanUser: string,
    salesmanName: string,
    salesmanLimit: int,
    usedCredit: int,
    remainingLimit: int,
    unpaidInvoices: nat,
    tempCustomers: nat,
    overLimit: bool,          // "Yes" / "No"
    isBlocked: bool,          // "Yes" / "No"
    blockReason: string)

  datatype ChartBar = ChartBar(name: string, used: int)

  datatype SummaryTotals = SummaryTotals(totalUsed: int, totalLimit: int, totalRemaining: int)

  // ---------------- Lookups ----------------

  /** `_get_salesman_policies`: `{r.user: r for r in rows if r.user}`. */
  function SalesmanPolicies(rows: seq<PolicyRow>): (m: map<string, PolicyRow>)
    ensures forall u :: u in m ==> u != "" && m[u].user == u
  {
    if rows == [] then map[]
    else
      var r := rows[|rows| - 1];
      var m0 := SalesmanPolicies(rows[..|rows| - 1]);
      if r.user == "" then m0 else m0[r.user := r]
  }

  /** Row `i` names a user and no later row names the same one. */
  predicate LastRowFor(rows: seq<PolicyRow>, i: int) {
    && 0 <= i < |rows|
    && rows[i].user != ""
    && forall j :: i < j < |rows| ==> rows[j].user != rows[i].user
  }

  /** The policy kept for a user is the last row naming that user. */
  lemma {:induction false} SalesmanPoliciesLastWins(rows: seq<PolicyRow>, i: int)
    requires LastRowFor(rows, i)
    ensures rows[i].user in SalesmanPolicies(rows) && SalesmanPolicies(rows)[rows[i].user] == rows[i]
  {
    var init, r := rows[..|rows| - 1], rows[|rows| - 1];
    if i < |init| {
      assert init[i] == rows[i];
      assert LastRowFor(init, i) by {
        forall j | i < j < |init| ensures init[j].user != init[i].user {
          assert init[j] == rows[j];
        }
      }
      SalesmanPoliciesLastWins(init, i);
    }
  }

  /** Only users named by some row have a policy. */
  lemma {:induction false} SalesmanPoliciesOnlyNamed(rows: seq<PolicyRow>, u: string)
    requires u in SalesmanPolicies(rows)
    ensures exists i :: 0 <= i < |rows| && rows[i].user == u
  {
    var init, r := rows[..|rows| - 1], rows[|rows| - 1];
    if !(r.user != "" && r.user == u) {
      SalesmanPoliciesOnlyNamed(init, u);
      var i :| 0 <= i < |init| && init[i].user == u;
      assert rows[i] == init[i];
    }
  }

  /** `{u.name: (u.full_name or "").strip() for u in urows}` */
  function NameMap(users: seq<UserRow>): (m: map<string, string>)
    ensures forall i :: 0 <= i < |users| ==> users[i].name in m
  {
    if users == [] then map[]
    else
      var init := users[..|users| - 1];
      var u := users[|users| - 1];
      assert forall i :: 0 <= i < |init| ==> init[i] == users[i];
      NameMap(init)[u.name := Strip(u.fullName)]
  }

  /** The user ids of the rows. */
  function UserNames(users: seq<UserRow>): set<string> {
    set i | 0 <= i < |users| :: users[i].name
  }

  /** Row `i` is the last one for its user. */
  predicate LastUserRow(users: seq<UserRow>, i: int) {
    && 0 <= i < |users|
    && forall j :: i < j < |users| ==> users[j].name != users[i].name
  }

  /** The name map has exactly the users as keys. */
  lemma {:induction false} NameMapKeys(users: seq<UserRow>)
    ensures NameMap(users).Keys == UserNames(users)
  {
    if users != [] {
      var init := users[..|users| - 1];
      var u := users[|users| - 1];
      NameMapKeys(init);
      forall k | k in UserNames(users) ensures k in UserNames(init) + {u.name} {
        var i :| 0 <= i < |users| && users[i].name == k;
        if i < |init| { assert init[i].name == k; }
      }
      forall k | k in UserNames(init) ensures k in UserNames(users) {
        var i :| 0 <= i < |init| && init[i].name == k;
        assert users[i].name == k;
      }
    }
  }

  /** A user's name is the stripped full name of its last row. */
  lemma {:induction false} NameMapLastWins(users: seq<UserRow>, i: int)
    requires LastUserRow(users, i)
    ensures NameMap(users)[users[i].name] == Strip(users[i].fullName)
  {
    var init := users[..|users| - 1];
    if i < |init| {
      assert init[i] == users[i];
      assert LastUserRow(init, i) by {
        forall j | i < j < |init| ensures init[j].name != init[i].name {
          assert init[j] == users[j];
        }
      }
      NameMapLastWins(init, i);
    }
  }

  // ---------------- One row per salesman ----------------

  /** `flt(pol.get("enabled", 1)) == 1`: no policy counts as enabled, a
      policy whose flag is null does not. */
  predicate PolicyEnabled(pol: Option<PolicyRow>) {
    match pol
    case None => true
    case Some(p) => OrZero(p.enabled) == 1
  }

  predicate PolicyBlocks(pol: Option<PolicyRow>) {
    match pol
    case None => false
    case Some(p) => OrZero(p.isBlocked) == 1
  }

  function PolicyFor(policies: map<string, PolicyRow>, user: string): Option<PolicyRow> {
    if user in policies then Some(policies[user]) else None
  }

  /** An enabled policy's positive limit wins; otherwise the default applies. */
  function SalesmanLimit(pol: Option<PolicyRow>, defaultLimit: int): (limit: int)
    ensures PolicyEnabled(pol) && pol.Some? && OrZero(pol.value.maxOutstandingLimit) > 0 ==>
              limit == OrZero(pol.value.maxOutstandingLimit)
    ensures !(PolicyEnabled(pol) && pol.Some? && OrZero(pol.value.maxOutstandingLimit) > 0) ==>
              limit == defaultLimit
  {
    var policyLimit := if PolicyEnabled(pol) && pol.Some? then OrZero(pol.value.maxOutstandingLimit) else 0;
    if policyLimit > 0 then policyLimit else defaultLimit
  }

  /** Over the limit: a positive limit that the used credit exceeds. */
  predicate OverLimit(limit: int, used: int) {
    limit > 0 && used > limit
  }

  /** The row `get_data` appends for one group, or `None` where a filter
      drops it. */
  function RowFor(group: GroupRow, filters: SalesmanFilters, policies: map<string, PolicyRow>,
                  names: map<string, string>, defaultLimit: int): (row: Option<SalesmanRow>)
    ensures var user := Strip(group.salesmanUser);
            var pol := PolicyFor(policies, user);
            var limit := SalesmanLimit(pol, defaultLimit);
            var used := OrZero(group.usedCredit);
            && (row.Some? <==> ((filters.showOnlyOverLimit != 1 || OverLimit(limit, used))
                                && (filters.showBlockedOnly != 1 || PolicyBlocks(pol))))
            && (row.Some? ==> && row.value.salesmanUser == user
                              && row.value.salesmanLimit == limit
                              && row.value.usedCredit == used
                              && row.value.remainingLimit == limit - used
                              && (row.value.overLimit <==> OverLimit(limit, used))
                              && (row.value.isBlocked <==> PolicyBlocks(pol))
                              && (!row.value.isBlocked ==> row.value.blockReason == "")
                              && (row.value.isBlocked ==> row.value.blockReason == Strip(pol.value.blockReason))
                              && row.value.unpaidInvoices == group.unpaidInvoices
                              && row.value.tempCustomers == group.tempCustomers
                              && row.value.salesmanName == OrElse(if user in names then names[user] else "", user))
  {
    var user := Strip(group.salesmanUser);
    var used := OrZero(group.usedCredit);
    var pol := PolicyFor(policies, user);
    var isBlocked := PolicyBlocks(pol);
    var blockReason := if pol.Some? then Strip(pol.value.blockReason) else "";
    var salesmanLimit := SalesmanLimit(pol, defaultLimit);
    var remaining := if salesmanLimit != 0 then salesmanLimit - used else 0 - used;
    var overLimit := salesmanLimit > 0 && used > salesmanLimit;
    if filters.showOnlyOverLimit == 1 && !overLimit then None
    else if filters.showBlockedOnly == 1 && !isBlocked then None
    else
      Some(SalesmanRow(user, OrElse(if user in names then names[user] else "", user),
                       salesmanLimit, used, remaining, group.unpaidInvoices, group.tempCustomers,
                       overLimit, isBlocked, if isBlocked then blockReason else ""))
  }

  function KeptRows(groups: seq<GroupRow>, filters: SalesmanFilters, policies: map<string, PolicyRow>,
                    names: map<string, string>, defaultLimit: int): seq<SalesmanRow>
  {
    if groups == [] then []
    else
      var init := KeptRows(groups[..|groups| - 1], filters, policies, names, defaultLimit);
      match RowFor(groups[|groups| - 1], filters, policies, names, defaultLimit)
      case Some(row) => init + [row]
      case None => init
  }

  /** `out.sort(key=used_credit, reverse=True)` */
  predicate UsedDesc(a: SalesmanRow, b: SalesmanRow) {
    a.usedCredit >= b.usedCredit
  }

  lemma UsedDescIsTotalPreorder()
    ensures TotalPreorder(UsedDesc)
  {
  }

  /** What every row of the report satisfies. */
  predicate WellFormedRow(row: SalesmanRow, filters: SalesmanFilters) {
    && row.remainingLimit == row.salesmanLimit - row.usedCredit
    && (row.overLimit <==> OverLimit(row.salesmanLimit, row.usedCredit))
    && (!row.isBlocked ==> row.blockReason == "")
    && (filters.showOnlyOverLimit == 1 ==> row.overLimit)
    && (filters.showBlockedOnly == 1 ==> row.isBlocked)
  }

  lemma {:induction false} KeptRowsWellFormed(groups: seq<GroupRow>, filters: SalesmanFilters,
                                              policies: map<string, PolicyRow>, names: map<string, string>,
                                              defaultLimit: int)
    ensures forall row :: row in KeptRows(groups, filters, policies, names, defaultLimit) ==> WellFormedRow(row, filters)
  {
    if groups != [] {
      KeptRowsWellFormed(groups[..|groups| - 1], filters, policies, names, defaultLimit);
    }
  }

  /** `get_data` after its reads: the kept salesman rows, most used first. */
  method GetData(filters: SalesmanFilters, defaultLimit: int, tempCustomers: seq<string>,
                 groups: seq<GroupRow>, policyRows: seq<PolicyRow>, users: seq<UserRow>)
    returns (out: seq<SalesmanRow>)
    ensures Strip(filters.company) == "" || tempCustomers == [] || groups == [] ==> out == []
    ensures Strip(filters.company) != "" && tempCustomers != [] && groups != [] ==>
              out == SortBy(KeptRows(groups, filters, SalesmanPolicies(policyRows), NameMap(users), defaultLimit), UsedDesc)
    ensures SortedBy(out, UsedDesc)
    ensures forall row :: row in out ==> WellFormedRow(row, filters)
  {
    var company := Strip(filters.company);
    if company == "" {
      return [];
    }
    if tempCustomers == [] {
      return [];
    }
    var policies := SalesmanPolicies(policyRows);
    if groups == [] {
      return [];
    }
    var names := NameMap(users);

    var kept: seq<SalesmanRow> := [];
    for i := 0 to |groups|
      invariant kept == KeptRows(groups[..i], filters, policies, names, defaultLimit)
    {
      assert groups[..i + 1][..i] == groups[..i];
      var row := RowFor(groups[i], filters, policies, names, defaultLimit);
      if row.None? {
        continue;
      }
      kept := kept + [row.value];
    }
    assert groups[..|groups|] == groups;

    out := SortBy(kept, UsedDesc);
    UsedDescIsTotalPreorder();
    KeptRowsWellFormed(groups, filters, policies, names, defaultLimit);
    forall row | row in out ensures WellFormedRow(row, filters) {
      assert row in multiset(out);
      assert row in multiset(kept);
    }
  }

  // ---------------- Chart and summary ----------------

  /** `get_chart`: the first ten rows' names and used credit. */
  function Chart(data: seq<SalesmanRow>): (chart: Option<seq<ChartBar>>)
    ensures chart.None? <==> data == []
    ensures chart.Some? ==> |chart.value| == if |data| < TopCount then |data| else TopCount
    ensures chart.Some? ==> forall j :: 0 <= j < |chart.value| ==>
              chart.value[j] == ChartBar(data[j].salesmanName, data[j].usedCredit)
  {
    if data == [] then None
    else
      var top := Take(data, TopCount);
      Some(seq(|top|, j requires 0 <= j < |top| => ChartBar(top[j].salesmanName, top[j].usedCredit)))
  }

  function SumUsed(data: seq<SalesmanRow>): int {
    if data == [] then 0 else SumUsed(data[..|data| - 1]) + data[|data| - 1].usedCredit
  }

  function SumLimit(data: seq<SalesmanRow>): int {
    if data == [] then 0 else SumLimit(data[..|data| - 1]) + data[|data| - 1].salesmanLimit
  }

  function SumRemaining(data: seq<SalesmanRow>): int {
    if data == [] then 0 else SumRemaining(data[..|data| - 1]) + data[|data| - 1].remainingLimit
  }

  /** `get_report_summary`: no cards without rows. */
  function ReportSummary(data: seq<SalesmanRow>): (totals: Option<SummaryTotals>)
    ensures totals.None? <==> data == []
  {
    if data == [] then None
    else Some(SummaryTotals(SumUsed(data), SumLimit(data), SumRemaining(data)))
  }

  /** Over rows whose remaining is limit minus used, the remaining total is
      the limit total minus the used total. */
  lemma {:induction false} RemainingTotalIsLimitMinusUsed(data: seq<SalesmanRow>)
    requires forall row :: row in data ==> row.remainingLimit == row.salesmanLimit - row.usedCredit
    ensures SumRemaining(data) == SumLimit(data) - SumUsed(data)
  {
    if data != [] {
      var init := data[..|data| - 1];
      assert forall row :: row in init ==> row in data;
      RemainingTotalIsLimitMinusUsed(init);
      assert data[|data| - 1] in data;
    }
  }

  /** The cards of the report's own rows are consistent. */
  lemma ReportSummaryConsistent(data: seq<SalesmanRow>, filters: SalesmanFilters)
    requires forall row :: row in data ==> WellFormedRow(row, filters)
    requires data != []
    ensures ReportSummary(data).Some?
    ensures ReportSummary(data).value.totalRemaining ==
            ReportSummary(data).value.totalLimit - ReportSummary(data).value.totalUsed
  {
    RemainingTotalIsLimitMinusUsed(data);
  }
}

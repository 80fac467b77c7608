# Temp Credit Control: a verified model of its core

Temp Credit Control is a Frappe/ERPNext app. It limits "temporary credit"
sales to customers whose payment type is *Temp Credit*. This project models
and proves three parts of it.

- **The Sales Invoice gate** (`services/temp_credit_validator.py`,
  `apply_temp_credit_rules`). It runs when an invoice is validated or
  submitted. It decides one of:
  - the invoice is not its business;
  - the customer is blacklisted;
  - the salesman is blocked;
  - a limit is exceeded: the customer's unpaid-invoice count, the
    customer's credit, the warehouse pool or the salesman pool;
  - the invoice is allowed, optionally with an information popup.

  The error title follows a fixed priority. The warehouse pool counts every
  matching unpaid temp-credit invoice once, whether it matches by its header
  warehouse or by an item row (`TempCreditValidatorFacts`).
- **The invoice-wise Temp Credit Status report** (`TempCreditStatus`,
  `TempCreditStatusCharts`). It has:
  - one row per unpaid invoice, with its customer's limit, used credit and
    remaining credit repeated;
  - a customer-distinct summary;
  - a top-10 chart, by salesman or by customer;
  - three summary cards.
- **The Temp Credit Salesman Status report** (`SalesmanStatus`). It has:
  - one row per salesman, with limit, used, remaining, over-limit and
    blocked;
  - a top-10 chart;
  - three totals.

Shared building blocks:

- `Common`: Python's `strip()` with the full `str.isspace` set; `a or b` on
  strings; `flt(None) == 0`; the override-or-default limit rule; the report
  duration.
- `Sums`: sums over lists, and order-free sums over Python sets.
- `Ordering`: Python's stable `sort(reverse=True)` and `[:n]`.

Modelling conventions:

- Money is `int`, in minor units.
- Every database read is an input: the settings record, the policies, the
  rows each query returns and the user names.
- `frappe.throw` and `frappe.msgprint` become variants of `Outcome`.
- A "Yes"/"No" column is a `bool`.
- A field that may be null is an `Option`.
- Each stateful loop of the source is a `method` proved against a
  specification function. Where the source is a comprehension or a plain
  `sum`, the model is a function.

The two components treat a salesman policy differently, and the model
keeps each as written:

- When an enabled policy has limit 0, the gate (`SalesmanLimit` in
  `TempCreditValidator`) switches the salesman check off. The salesman
  report falls back to the default limit instead.
- The report shows a disabled policy's `is_blocked` flag as Blocked. The
  gate ignores a disabled policy.

## Model

| member | source | states |
|---|---|---|
| Common.StripMeaning | temp_credit_control/services/temp_credit_validator.py:32 | `strip()` removes an all-whitespace prefix and suffix and nothing else: the result is a slice `s[i..j]` with only whitespace before `i` and after `j`. It is empty exactly for all-whitespace input, and otherwise starts and ends with a non-space character |
| Common.EffectiveFlt | temp_credit_control/services/temp_credit_validator.py:333-335 | a positive override wins; a missing, zero or negative override gives the default; the result is the default or a positive override |
| Common.DateLimit | temp_credit_control/temp_credit_control/report/temp_credit_status/temp_credit_status.py:352-364 | only the four named durations give a bound ("All" and anything else give none); "Today" is today, and "Last 30/60/90 Days" are today minus 30, 60 and 90 days |
| Ordering.SortBy | temp_credit_control/temp_credit_control/report/temp_credit_status/temp_credit_status.py:227 | sorting returns a permutation of its input (same multiset and length), and for a total preorder the result is sorted |
| Ordering.TopN | temp_credit_control/temp_credit_control/report/temp_credit_status/temp_credit_status.py:285-288 | sort-then-slice keeps min(n, length) elements of the input, in order, and nothing left out ranks above anything kept |
| Ordering.Take | temp_credit_control/temp_credit_control/report/temp_credit_salesman_status/temp_credit_salesman_status.py:167 | `s[:n]` is the prefix of length min(n, \|s\|) |
| TempCreditValidator.EffectiveInt | temp_credit_control/services/temp_credit_validator.py:338-343 | an unconvertible or non-positive override gives the default; a positive one wins |
| TempCreditValidator.CustomerOutstanding | temp_credit_control/services/temp_credit_validator.py:218-238 | the loop counts every unpaid invoice of the customer and totals their outstanding |
| TempCreditValidator.WarehouseTcOutstanding | temp_credit_control/services/temp_credit_validator.py:241-300 | the set loop gives the sum over the union of header-matched and item-matched invoice names; it is 0 without temp-credit customers or without base invoices |
| TempCreditValidator.SalesmanTcOutstanding | temp_credit_control/services/temp_credit_validator.py:303-330 | the salesman's temp-credit outstanding is the sum of the rows; it is 0 without temp-credit customers |
| TempCreditValidator.WarehouseLevel | temp_credit_control/services/temp_credit_validator.py:88-106 | with the warehouse limit on and a header or first-item warehouse, the pool holds the warehouse total plus this invoice when it is a draft; otherwise there is no pool |
| TempCreditValidator.SalesmanLevel | temp_credit_control/services/temp_credit_validator.py:119-139 | the salesman is blocked exactly when the check is on and an enabled policy is blocked, with that reason or the default reason; otherwise the pool exists exactly when the limit is positive |
| TempCreditValidator.FinalCheck | temp_credit_control/services/temp_credit_validator.py:149-164 | the invoice is stopped exactly when the customer limit is exceeded or a pool is strictly over its limit. The title is "Customer & Warehouse" when both the customer and the warehouse are over; "Warehouse" when only the warehouse is; "Salesman" when the warehouse is not over and the salesman is; plain otherwise. When not stopped, the invoice is allowed with the popup setting |
| TempCreditValidator.ApplyTempCreditRules | temp_credit_control/services/temp_credit_validator.py:5-164 | the gate does nothing exactly when a guard fails (doctype, cancelled, return, no customer, disabled, not temp credit, disabled policy). A blacklist comes next, then a blocked salesman, then the limit check, each on the figures the rule defines |
| TempCreditValidatorFacts.WarehouseCountsEachInvoiceOnce | temp_credit_control/services/temp_credit_validator.py:276-300 | with distinct invoice names, the warehouse pool is the sum of the matching invoices' outstanding, each counted once even when it matches by header and by several items |
| TempCreditValidatorFacts.MoreInvoicesNeverUnblock | temp_credit_control/services/temp_credit_validator.py:149-160 | one more unpaid invoice of the customer, with a non-negative amount, never turns a stopped invoice into an allowed one |
| TempCreditStatus.EnabledPolicies | temp_credit_control/temp_credit_control/report/temp_credit_status/temp_credit_status.py:536-539 | every kept policy is enabled and is keyed by its own customer |
| TempCreditStatus.EnabledPoliciesLastWins | temp_credit_control/temp_credit_control/report/temp_credit_status/temp_credit_status.py:536-539 | a customer's last enabled row is its policy, whatever disabled rows follow it |
| TempCreditStatus.EnabledPoliciesOnlyEnabled | temp_credit_control/temp_credit_control/report/temp_credit_status/temp_credit_status.py:536-539 | a customer has a policy only if one of its rows is enabled |
| TempCreditStatus.PoliciesForCustomers | temp_credit_control/temp_credit_control/report/temp_credit_status/temp_credit_status.py:524-541 | no customers give no policies; otherwise the loop builds the last-wins map of the enabled rows |
| TempCreditStatus.CustomerOutstanding | temp_credit_control/temp_credit_control/report/temp_credit_status/temp_credit_status.py:149-152 | the map has one key per invoice customer, holding that customer's total over all fetched invoices |
| TempCreditStatus.CreditLimitFor | temp_credit_control/temp_credit_control/report/temp_credit_status/temp_credit_status.py:174-178 | a temp customer's limit is its policy's positive override, else the default; any other customer's limit is its standard limit, or 0 |
| TempCreditStatus.RowFor | temp_credit_control/temp_credit_control/report/temp_credit_status/temp_credit_status.py:158-213 | an invoice gets a row only if its customer is known and the credit-type filter admits it. In over-limit mode, an admitted invoice is kept exactly when the limit is positive and used credit exceeds it. A row carries the customer's total and remaining = limit - used, with the invoice's posting date, the customer's name, group and territory, the stripped owner as salesman user, and the salesman name falling back to that user |
| TempCreditStatus.BuildRows | temp_credit_control/temp_credit_control/report/temp_credit_status/temp_credit_status.py:155-224 | the loop appends every invoice's row in order and the summary entry for each customer's first row |
| TempCreditStatus.GetData | temp_credit_control/temp_credit_control/report/temp_credit_status/temp_credit_status.py:108-229 | no company or no named customer gives nothing. Otherwise the rows are the kept rows, sorted newest first and then by invoice name descending, and the summary is built from the unsorted rows |
| TempCreditStatus.RowOrderIsTotalPreorder | temp_credit_control/temp_credit_control/report/temp_credit_status/temp_credit_status.py:227 | the (posting date, invoice name) descending order is total and transitive, so the sort is well defined |
| TempCreditStatus.KeptRowOrigin | temp_credit_control/temp_credit_control/report/temp_credit_status/temp_credit_status.py:158-213 | every row comes from one of the fetched invoices |
| TempCreditStatus.KeptRowComplete | temp_credit_control/temp_credit_control/report/temp_credit_status/temp_credit_status.py:158-213 | every invoice the filters admit has its row |
| TempCreditStatus.RowsCarryCustomerTotals | temp_credit_control/temp_credit_control/report/temp_credit_status/temp_credit_status.py:184-185 | each row's used credit is its customer's outstanding over every fetched invoice, kept or not, and remaining is limit minus that |
| TempCreditStatus.RowsOverLimitWhenAsked | temp_credit_control/temp_credit_control/report/temp_credit_status/temp_credit_status.py:188-192 | in over-limit mode every row has a positive limit and more used than it |
| TempCreditStatus.SummariesDistinct | temp_credit_control/temp_credit_control/report/temp_credit_status/temp_credit_status.py:216-224 | the summary never holds two entries for one customer |
| TempCreditStatus.SummariesCoverRows | temp_credit_control/temp_credit_control/report/temp_credit_status/temp_credit_status.py:216-224 | a customer has a summary entry exactly when it has a row |
| TempCreditStatus.SummariesFromFirstRows | temp_credit_control/temp_credit_control/report/temp_credit_status/temp_credit_status.py:216-224 | each summary entry is made from its customer's first row |
| TempCreditStatusCharts.KeyOrder | temp_credit_control/temp_credit_control/report/temp_credit_status/temp_credit_status.py:258-260 | every row's salesman key is in the key order, and no key appears twice |
| TempCreditStatusCharts.KeyOrderOrigin | temp_credit_control/temp_credit_control/report/temp_credit_status/temp_credit_status.py:258-260 | every key in the order is the key of some row, so no bar is made for a salesman without rows |
| TempCreditStatusCharts.KeyOrderFirstOccurrence | temp_credit_control/temp_credit_control/report/temp_credit_status/temp_credit_status.py:258-260 | keys follow the dictionary's insertion order: before any row under a later key there is a row under each earlier key |
| TempCreditStatusCharts.UsedBySalesman | temp_credit_control/temp_credit_control/report/temp_credit_status/temp_credit_status.py:258-260 | the loop gives the keys in first-occurrence order, each with the outstanding of its rows |
| TempCreditStatusCharts.CustomersBySalesman | temp_credit_control/temp_credit_control/report/temp_credit_status/temp_credit_status.py:262-266 | each salesman key maps to exactly the customers whose summary entry falls under it, never to an empty set |
| TempCreditStatusCharts.LimitBySalesman | temp_credit_control/temp_credit_control/report/temp_credit_status/temp_credit_status.py:268-273 | the set loops give, per key, the order-free sum of its customers' limits |
| TempCreditStatusCharts.SalesmanLimitIsDistinctSum | temp_credit_control/temp_credit_control/report/temp_credit_status/temp_credit_status.py:262-281 | with a customer-distinct summary, a salesman's limit bar is the sum of the limits of the summary entries under that key; it is 0 for a key without customers |
| TempCreditStatusCharts.LimitByIsSumOverCustomers | temp_credit_control/temp_credit_control/report/temp_credit_status/temp_credit_status.py:268-273 | summing limits over a salesman's customer set counts each distinct customer's entry once |
| TempCreditStatusCharts.BarsOf | temp_credit_control/temp_credit_control/report/temp_credit_status/temp_credit_status.py:275-283 | the loop makes one bar per salesman key, in key order, with its used total and its limit, or 0 for a key without customers |
| TempCreditStatusCharts.BarsAreSalesmanBars | temp_credit_control/temp_credit_control/report/temp_credit_status/temp_credit_status.py:258-283 | the four loops together build exactly the salesman bars: first-occurrence key order, the used total per key and the distinct-customer limit per key |
| TempCreditStatusCharts.ChartSalesmanWise | temp_credit_control/temp_credit_control/report/temp_credit_status/temp_credit_status.py:252-301 | no rows give no chart; otherwise the chart is the top ten salesman bars by used credit, each with its used total and distinct-customer limit |
| TempCreditStatusCharts.KeyOrderCoversOutstanding | temp_credit_control/temp_credit_control/report/temp_credit_status/temp_credit_status.py:258-260 | the per-salesman used totals add up to the outstanding of all rows: each invoice is counted under exactly one salesman |
| TempCreditStatusCharts.SalesmanBarsCoverOutstanding | temp_credit_control/temp_credit_control/report/temp_credit_status/temp_credit_status.py:276-285 | the used amounts of all salesman bars, before the top-10 cut, add up to the outstanding of all rows |
| TempCreditStatusCharts.ChartTopCustomers | temp_credit_control/temp_credit_control/report/temp_credit_status/temp_credit_status.py:304-325 | there is no chart exactly when the summary is empty. Otherwise it has min(10, n) bars sorted by used credit, forming a sub-multiset of the summary entries' bars (no customer shown twice), and no left-out customer uses more than a shown one |
| TempCreditStatusCharts.GetChart | temp_credit_control/temp_credit_control/report/temp_credit_status/temp_credit_status.py:234-249 | no rows give no chart; the stripped mode "Customer Wise" picks the customer chart; anything else, including no mode, picks the salesman chart |
| TempCreditStatusCharts.GetReportSummary | temp_credit_control/temp_credit_control/report/temp_credit_status/temp_credit_status.py:328-347 | the cards hold the summary's used and limit totals, and the remaining total accumulated entry by entry equals limit total minus used total |
| SalesmanStatus.SalesmanPolicies | temp_credit_control/temp_credit_control/report/temp_credit_salesman_status/temp_credit_salesman_status.py:213-219 | only non-empty users are keys, each mapped to a row of its own |
| SalesmanStatus.SalesmanPoliciesLastWins | temp_credit_control/temp_credit_control/report/temp_credit_salesman_status/temp_credit_salesman_status.py:219 | a user's last policy row is its policy |
| SalesmanStatus.SalesmanPoliciesOnlyNamed | temp_credit_control/temp_credit_control/report/temp_credit_salesman_status/temp_credit_salesman_status.py:219 | a user has a policy only if some row names it |
| SalesmanStatus.NameMap | temp_credit_control/temp_credit_control/report/temp_credit_salesman_status/temp_credit_salesman_status.py:120 | every fetched user has a name entry |
| SalesmanStatus.NameMapKeys | temp_credit_control/temp_credit_control/report/temp_credit_salesman_status/temp_credit_salesman_status.py:120 | the name map's keys are exactly the fetched users' ids |
| SalesmanStatus.NameMapLastWins | temp_credit_control/temp_credit_control/report/temp_credit_salesman_status/temp_credit_salesman_status.py:120 | a user's name is the stripped full name from that user's last row |
| SalesmanStatus.SalesmanLimit | temp_credit_control/temp_credit_control/report/temp_credit_salesman_status/temp_credit_salesman_status.py:127-133 | an enabled policy's positive limit wins; otherwise, including no policy, a disabled policy or a limit of 0, the default applies |
| SalesmanStatus.RowFor | temp_credit_control/temp_credit_control/report/temp_credit_salesman_status/temp_credit_salesman_status.py:123-155 | a salesman is kept exactly when the over-limit and blocked-only filters admit them. A row carries remaining = limit - used (both source branches agree), over-limit iff the limit is positive and exceeded, the policy's stripped block reason when blocked and an empty one otherwise, the group's unpaid-invoice and temp-customer counts, and the user as name fallback |
| SalesmanStatus.KeptRowsWellFormed | temp_credit_control/temp_credit_control/report/temp_credit_salesman_status/temp_credit_salesman_status.py:123-157 | every kept row satisfies remaining = limit - used, the over-limit rule, the block-reason rule and both filters |
| SalesmanStatus.GetData | temp_credit_control/temp_credit_control/report/temp_credit_salesman_status/temp_credit_salesman_status.py:36-160 | no company, no temp-credit customers or no grouped rows give nothing. Otherwise the rows are the kept rows sorted by used credit, most first, and each satisfies the row rules and filters |
| SalesmanStatus.Chart | temp_credit_control/temp_credit_control/report/temp_credit_salesman_status/temp_credit_salesman_status.py:163-175 | no rows give no chart; otherwise the first min(10, n) rows' names and used credit, in order |
| SalesmanStatus.ReportSummary | temp_credit_control/temp_credit_control/report/temp_credit_salesman_status/temp_credit_salesman_status.py:178-188 | there are no cards exactly when there are no rows |
| SalesmanStatus.RemainingTotalIsLimitMinusUsed | temp_credit_control/temp_credit_control/report/temp_credit_salesman_status/temp_credit_salesman_status.py:178-183 | over rows whose remaining is limit minus used, the remaining total is the limit total minus the used total |
| SalesmanStatus.ReportSummaryConsistent | temp_credit_control/temp_credit_control/report/temp_credit_salesman_status/temp_credit_salesman_status.py:178-188 | for the report's own rows, the "Total Remaining" card equals "Total Salesman Limit" minus "Total Used Temp Credit" |

## Left out

- SQL and `frappe.get_all` / `frappe.db` reads are inputs, not modelled queries:
  - `_get_settings` in all three files;
  - `_get_customer_policy`'s lookup by name, then by customer;
  - `_get_salesman_policy`;
  - `_get_unpaid_invoices` and its WHERE filters (company, duration, group, salesman, customer, territory);
  - `_get_customers_map`, `_get_standard_credit_limits`, `_get_temp_customer_flags`;
  - the salesman report's grouped query and its `has_column` probe;
  - the page-size caps (`limit_page_length`).
- The message, popup and error texts (number formatting, `max(remaining, 0)`, emoji) are left out. The outcome carries the figures, and the title is the `Title` variant (its text is `TitleText`).
- `round(..., 2)` and float arithmetic: amounts are exact integers in minor units.
- `nowdate()` is the `today` parameter of `DateLimit`. `add_days` is subtraction of day numbers.
- `get_date_limit` exists in both reports with the same body. `Common.DateLimit` models both, and `_effective_flt` of both files is `Common.EffectiveFlt`.
- `get_columns`, `execute`, `hooks.py` and the JavaScript files are left out. They are wiring and form code around the modelled functions.
- `temp_credit_status.py` lines 553-1659 are an older version of the report, commented out, and are left out.
- A policy flag read with `flt(...)` is an `int`. A null flag is given as 0, which is what `flt(None)` yields.
- Ordering.SortBy: the model is a stable insertion sort, but stability itself is not stated as a property; only permutation and sortedness are.
- TempCreditStatus.GetData: the posting date is an integer day number. The source's `or ""` fallback for a missing date is left out, because the query always returns a date.
- SalesmanStatus.ReportSummary: the totals are `Sum` over the rows as written. Their relation to each other is stated by `RemainingTotalIsLimitMinusUsed`, not in the function's own contract.
- The helper methods `WarehouseLevel`, `SalesmanLevel`, `BuildRows`, `UsedBySalesman`, `CustomersBySalesman`, `LimitBySalesman` and `BarsOf` are sections of one Python function, split out to keep each proof small. Their order of effects is the source's.

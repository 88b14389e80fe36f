# Budget tracker: a verified model of its dashboard script and its Flask server

MY-BUDGET-TRACKER is a small personal budget application. A Flask server
(`app.py`) keeps users and their income/expense transactions in SQLite and
serves a JSON API: register, login, logout, list and add transactions, delete one
transaction, and reset all of a user's data. A dashboard script
(`static/script.js`) fetches the caller's transactions and summary. It renders them
as two lists with a category icon per row, fills the header totals, toggles the
first-run setup modal, and draws two Chart.js charts: an income/expense doughnut
and a bar chart of the last seven days' spending.

This project models both halves in Dafny and proves what they promise.

- `records.dfy` (module `Records`) holds what client and server share:
  - the transaction record `Tx`;
  - the `Summary` of income, expense and balance;
  - `SumKind`, the per-type sum (`SUM(amount) ... WHERE type = ?`, or 0);
  - `Summarize`.
- `icons.dfy` (module `Icons`) models `getIcon`.
  - `GetIcon` is the script's cascade of `includes` tests on the lower-cased
    description.
  - `Rules` and `FirstMatch` express the same rules as an ordered table with
    first-match semantics.
  - The two are proved to agree on every description.
- `weekly.dfy` (module `Weekly`) models the aggregation inside `updateWeeklyChart`.
  - `WeeklySeries` is the script's two loops: a `Map` from date key to total,
    then a pass over the transactions.
  - It is proved against `WeekValues`/`WeekLabels`: bucket `j` is the expense
    total of day `today - 6 + j`.
  - The seven buckets together hold exactly the window's expenses.
- `dashboard.dfy` (module `Dashboard`) models the page.
  - `PageState` holds:
    - both lists;
    - the setup modal flag;
    - the header texts;
    - the two chart handles `myChart` and `weeklyChartInst`;
    - the set of live Chart.js instances;
    - the page location.
  - Each step of the script is a pure transition: `Listed` (renderList),
    `ChartUpdated` (updateChart), `WeeklyUpdated` (updateWeeklyChart) and
    `Fetched` (fetchData).
  - Class `Page` holds the script's mutable variables. Each of its methods is
    proved to perform exactly its transition.
- `store.dfy` (module `Store`) models the server.
  - Class `Store` holds the `users` table, the `transactions` table (rows tagged
    with their owner), the session, and the two AUTOINCREMENT counters.
  - It has one method per route, returning the HTTP status.
  - Each SQL statement is modelled by its meaning: `OwnedTxs` (SELECT by owner),
    `SortNewestFirst` (ORDER BY timestamp DESC), `WithoutTx`/`WithoutOwner`
    (the two DELETEs).

Modelling choices:

- Amounts are integers, in the smallest currency unit.
- Timestamps are integers ordered like the instants they denote.
- The browser's mapping from a timestamp to its local calendar day (`new
  Date(ts).toDateString()`) is a parameter `localDay: int -> int`.
  - Calendar days are day numbers counted from 1970-01-01, a Thursday, so
    `getDay()` is `(day + 4) % 7`.
  - "Today" is a day-number parameter.
- A response the script receives is a `Reply` value:
  - a network failure;
  - a status with an unreadable body;
  - a body whose fields may be missing.
- Password hashing is a parameter:
  - `Register` receives the hash `generate_password_hash` produced;
  - `Login` receives `check_password_hash` as a predicate.

fetchData does not update the page all at once: a body with a transaction list
but no summary first toggles the setup modal and only then throws, leaving the
rest of the page as it was. `Fetched` models this partial update.

## Model

| member | source | states |
|---|---|---|
| Records.Summarize | app.py:135-137 | balance is income minus expense, and an empty list gives all three totals 0 |
| Records.SumKindAppend | app.py:135-136 | a per-type sum over two lists of rows is the sum of the two sums |
| Records.SumKindPermutation | app.py:135-136 | a per-type sum depends only on which rows there are, not on their order |
| Records.SummarizePermutation | app.py:132-137 | the summary of a list equals the summary of any reordering, so the totals agree with the ordered list |
| Records.OtherKindsIgnored | app.py:135-136 | a row whose type is neither 'income' nor 'expense' counts toward neither total |
| Records.SumKindAbsent | app.py:135-136 | SumKind, the per-type `SUM(amount)` with `or 0`: with no row of a type, that type's total is 0 (SumKindAppend, SumKindPermutation and OtherKindsIgnored state the rest of what it promises) |
| Icons.LowerIdempotent | static/script.js:160 | lower-casing an already lower-cased description changes nothing |
| Icons.Includes | static/script.js:161-166 | includes(k) holds exactly when k occurs in the description at some position |
| Icons.FallbackIffNoMatch | static/script.js:159-168 | an ordered rule table answers the fallback exactly when no rule has a keyword in the description |
| Icons.FirstMatchIsFirst | static/script.js:159-168 | an ordered rule table answers the icon of the first rule that has a keyword in the description |
| Icons.GetIconIsFirstMatch | static/script.js:159-168 | GetIcon, the six tests of getIcon as written, answers on every description what the ordered rule table car, utensils, shopping bag, gamepad, money bill, home, tried in order, answers for its lower-cased form |
| Icons.GetIconPicksFirstRule | static/script.js:159-166 | getIcon returns the icon of the first rule, in that order, one of whose keywords occurs in the lower-cased description |
| Icons.GetIconFallback | static/script.js:159-167 | getIcon returns "fa-wallet" exactly when no keyword of any rule occurs in the lower-cased description |
| Icons.GetIconIgnoresCase | static/script.js:160 | descriptions equal up to case get the same icon |
| Icons.GetIconOfLowered | static/script.js:160 | a description and its lower-cased form get the same icon |
| Icons.EarlierRuleShadows | static/script.js:161-162 | a description containing both "uber" and "pizza" in any case gets "fa-car" |
| Icons.UberPizzaIsCar | static/script.js:161-162 | "Uber to Pizza Hut" gets "fa-car" |
| Weekly.Weekday | static/script.js:238 | getDay of a day number is one of the seven weekday indexes |
| Weekly.WeekValues | static/script.js:234-259 | there are exactly seven bucket values |
| Weekly.WeekLabels | static/script.js:234-246 | there are exactly seven labels |
| Weekly.WeeklySeries | static/script.js:227-259 | the loops produce the seven labels of the days today-6 through today and the seven bucket values, oldest first, whose sum is the window's total expense |
| Weekly.WeekTotal | static/script.js:244-259 | the seven buckets sum to the total expense amount whose local date lies between today-6 and today |
| Weekly.SumDaysIsExpenseBetween | static/script.js:249-256 | consecutive day buckets together hold every expense of their days and nothing else |
| Weekly.EmptyDayIsZero | static/script.js:244-256 | a day with no expense dated on it keeps its initial 0 |
| Weekly.ExpenseOnAppend | static/script.js:249-256 | a day's bucket is additive over concatenated transaction lists |
| Weekly.NonContributingIgnored | static/script.js:249-256 | inserting an income, or an expense dated outside the window, anywhere in the list changes no bucket |
| Weekly.BucketsNonNegative | static/script.js:249-256 | with non-negative amounts every bucket is non-negative |
| Weekly.LabelsAreDistinctDays | static/script.js:234-246 | the last label is today's weekday and the seven labels are pairwise different |
| Weekly.WeekdaysDiffer | static/script.js:238 | days fewer than seven apart fall on different weekdays |
| Weekly.SalaryAndPizzaExample | static/script.js:234-259 | a salary and a pizza bought today give buckets 0,0,0,0,0,0 and the pizza's amount |
| Dashboard.ItemsSnoc | static/script.js:335-364 | rendering one more transaction appends exactly its item |
| Dashboard.EntryOf | static/script.js:336-339 | one item carries the transaction's id, description, amount and its icon from getIcon, and its sign is '-' exactly for an expense and '+' otherwise |
| Dashboard.ListView | static/script.js:320-365 | the placeholder alone exactly when the list is empty; otherwise one item per transaction in order, with its id, description, amount and icon, signed '-' exactly for expenses and '+' otherwise |
| Dashboard.Listed | static/script.js:320-365 | renderList changes nothing when the element is missing; otherwise that element, and only it, ends up holding ListView of the transactions |
| Dashboard.Destroyed | static/script.js:183 | destroying the handle's chart, if any, removes exactly that chart from the live charts |
| Dashboard.ChartUpdated | static/script.js:179-220 | without the doughnut canvas updateChart changes nothing; otherwise it changes only myChart and the live charts, and keeps every live chart named by its handle |
| Dashboard.WeeklyUpdated | static/script.js:222-317 | without the bar canvas updateWeeklyChart changes nothing; otherwise it changes only weeklyChartInst and the live charts, and keeps every live chart named by its handle |
| Dashboard.AtMostOneLive | static/script.js:183-188 | while every live chart is named by its handle, each canvas carries at most one live chart, the one its handle names |
| Dashboard.ChartUpdatedLive | static/script.js:183-193 | after updateChart the doughnut canvas holds nothing when both totals are 0 and exactly one new chart with [income, expense] otherwise; the bar canvas is untouched |
| Dashboard.ZeroTotalsLeaveStaleHandle | static/script.js:183-186 | with both totals 0 the old doughnut is destroyed yet myChart still names it |
| Dashboard.WeeklyUpdatedLive | static/script.js:261-275 | after updateWeeklyChart the bar canvas holds exactly one new chart with the seven labels and values, even all zero; the doughnut canvas is untouched |
| Dashboard.HeaderShown | static/script.js:386-388 | each present header element shows its total from the summary, an absent one keeps its text, and nothing else changes |
| Dashboard.Rendered | static/script.js:385-396 | rendering leaves the setup modal and the page location as they were |
| Dashboard.Fetched | static/script.js:368-401 | a 401 only redirects to the login page; a failed request or unreadable body changes nothing; otherwise the setup modal is active exactly when the transaction list is empty; a reply with a list but no summary changes the setup modal and nothing else, so the earlier header, lists and charts stay |
| Dashboard.FetchedKeepsChartsValid | static/script.js:368-401 | a refresh keeps every live chart named by its handle |
| Dashboard.FetchedListsAgree | static/script.js:383-392 | after a complete reply both lists show the rendering of the same transaction array, and the header shows its balance, income and expense |
| Dashboard.RenderedCharts | static/script.js:395-396 | rendering leaves the doughnut showing [income, expense], or nothing when both are 0, and the bar chart showing the weekly buckets of the same transactions |
| Dashboard.FetchedChartsShowReply | static/script.js:375-396 | after a complete reply both charts show data from that reply's summary and transaction list |
| Dashboard.FetchedIdempotent | static/script.js:368-401 | refreshing twice from the same reply leaves the same lists, header, modal and location as refreshing once |
| Dashboard.FetchedChartsIdempotent | static/script.js:368-401 | refreshing twice from the same reply leaves the same data on both charts as refreshing once |
| Dashboard.Page.constructor | static/script.js:45-47 | the page starts with both handles null, no live chart and empty lists |
| Dashboard.Page.Destroy | static/script.js:183 | destroying a chart removes it from the live charts and changes nothing else |
| Dashboard.Page.NewChart | static/script.js:188-193 | creating a chart adds one fresh instance with the given data and changes nothing else |
| Dashboard.Page.SetContent | static/script.js:322 | replacing one list element's content changes nothing else |
| Dashboard.Page.UpdateChart | static/script.js:179-220 | the method performs exactly the updateChart transition and keeps every live chart named by its handle |
| Dashboard.Page.UpdateWeeklyChart | static/script.js:222-317 | the method performs exactly the updateWeeklyChart transition, with the aggregation loops' results, and keeps every live chart named by its handle |
| Dashboard.Page.RenderList | static/script.js:320-366 | the clearing and appending loop leaves exactly ListView of the transactions in the present element |
| Dashboard.Page.ShowHeader | static/script.js:386-388 | the method performs exactly the header update |
| Dashboard.Page.Render | static/script.js:385-396 | header, both lists and both charts are all rendered from the same transactions and summary |
| Dashboard.Page.FetchData | static/script.js:368-401 | the method performs exactly the fetchData transition and keeps every live chart named by its handle, so each canvas keeps at most one live chart |
| Dashboard.Page.DeleteTx | static/script.js:171-177 | a declined confirmation sends no request and changes nothing; a confirmed one requests that id, and the page refreshes exactly when the response status is 2xx |
| Store.FindUser | app.py:90 | the lookup finds a user with that name exactly when one exists |
| Store.OwnedTxs | app.py:132 | the caller's transactions are exactly those of rows owned by the caller |
| Store.OwnedTxsAppend | app.py:132 | selecting by owner distributes over concatenated tables |
| Store.InsertByTime | app.py:132 | inserting into a newest-first list keeps it newest first and one longer |
| Store.InsertByTimePermutes | app.py:132 | insertion adds the new transaction and loses none |
| Store.SortNewestFirst | app.py:132 | ORDER BY timestamp DESC yields a newest-first reordering of the same transactions |
| Store.Filter | app.py:166 | a DELETE keeps exactly the rows its condition spares |
| Store.WithoutTx | app.py:166 | DELETE by id and owner keeps exactly the rows that do not have both that id and that owner |
| Store.WithoutOwner | app.py:181 | DELETE by owner keeps exactly the rows of other owners |
| Store.FilterKeepsIdsUnique | app.py:26 | deleting rows keeps the primary key unique |
| Store.FilterSparesOwner | app.py:166 | a delete that spares every row of one user leaves that user's transactions, in order, as they were |
| Store.DeleteIsolated | app.py:166 | deleting by id and owner never changes what another user sees |
| Store.DeleteWithoutMatch | app.py:166-168 | a delete that matches no row leaves the table unchanged |
| Store.ResetIsolated | app.py:181 | reset leaves the caller no transactions and every other user's transactions as they were |
| Store.NoRowsNoTxs | app.py:181 | a table with no row of a user lists nothing for that user |
| Store.Store.constructor | app.py:15-35 | both tables start empty, with no one logged in |
| Store.Store.Register | app.py:62-81 | a missing or empty username or password gives 400 with no insert; a taken username gives 409 with users unchanged; otherwise 200 and exactly one user is appended; usernames stay unique |
| Store.Store.Login | app.py:83-98 | 200 and the session names the user exactly when the username exists and the password check passes; otherwise 401 with the session unchanged |
| Store.Store.Logout | app.py:100-103 | the session is cleared and the result is 200 |
| Store.Store.ListTransactions | app.py:105-157 | 401 without a session; otherwise a newest-first reordering of exactly the caller's transactions, no other user's, and a summary that agrees with that list, with balance = income - expense |
| Store.Store.AddTransaction | app.py:105-129 | 401 without a session; a missing amount 500; an unparsable amount 400; a missing type or description 500; otherwise exactly one row owned by the caller is appended; on every failure the tables are unchanged |
| Store.Store.DeleteTransaction | app.py:159-172 | 401 and no change without a session; otherwise 200, even when nothing matched, and exactly the row with that id owned by the caller is removed |
| Store.Store.ResetData | app.py:174-187 | 401 and no change without a session; otherwise 200 and exactly the caller's rows are removed |

## Left out

- formatMoney (static/script.js:155-157) is a wrapper over `Intl.NumberFormat`. The header texts are modelled as the numbers they format.
- Theme persistence, view and navigation switching, and the modal and tab wiring (static/script.js:49-149) are UI plumbing with no logic to prove.
- The form submit handlers (static/script.js:409-439) are not modelled as page steps. Their POST is `AddTransaction` and their refresh is `FetchData`, but the model does not capture what else they do to the page:
  - the transaction form is reset and the add modal closed before the refresh (static/script.js:421-422);
  - the setup form closes the setup modal before the refresh (static/script.js:436), so a refresh that then fails leaves it closed.
- The inline HTML and CSS of list items, animation delays, the date and time text under each item, and Chart.js options (colours, fonts, padding) are not modelled. An `Entry` keeps only the data an item shows.
- HTML escaping is not modelled. `Entry.description` is the raw description string, but static/script.js:351-355 interpolates it into `innerHTML` unescaped, so the page displays the description parsed as HTML.
- `fetch`/`await` and the interleaving of overlapping refreshes are not modelled. Each refresh is one atomic step over a given `Reply`.
- JavaScript `Date` arithmetic and time zones are not modelled. They are replaced by the `localDay` parameter and a `today` day number, and the clock is read once per refresh.
- Floating-point amounts (the REAL column, `float()` parsing, JavaScript number addition) are not modelled. Amounts are integers.
- Icons.Lower: lower-cases ASCII letters only, because `toLowerCase`'s full Unicode case mapping is not modelled.
- A `setupModal` element missing from the page, which would make fetchData throw, is not modelled. The modal is assumed present.
- Store.Store.Login: takes the password as a string, because a missing password (check_password_hash on None) is not modelled.
- Non-string JSON values for username, password, type or description are not modelled.
- A request without a JSON object body is not modelled. A body that parses as JSON but is `null` or not an object reaches `data.get`, which raises, so register, login and the POST of transactions answer 500 with no change (app.py:64-66, 85-87, 114-115). A body that is not JSON at all, or lacks the JSON content type, is refused by `request.json` itself, with a status that depends on the Werkzeug version. The `Option` parameters only express a missing field of an object body.
- SQLite exceptions other than the UNIQUE and NOT NULL constraints are not modelled. These include the 500 paths of delete_transaction and reset_data (app.py:169-170, 184-185).
- The session is the one client's cookie. Several concurrent clients are not modelled.
- Store.Store.ListTransactions: does not fix the order of transactions with equal timestamps, because SQLite leaves it unspecified.
- The page routes `/`, `/login` and `/dashboard` (app.py:44-58) only render templates or redirect.

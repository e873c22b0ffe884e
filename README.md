# Money Tracking: the record collections, verified

This project models, in Dafny, the data layer of the Money Tracking progressive web
app: the two record collections that hold a user's income/expense transactions and
savings goals, together with the summaries computed from them.

- Each collection is a list of records, newest first. It has add, update-by-id and
  delete-by-id operations, and the savings goals also take deposits (`addToGoal`).
  A collection is a class with a `seq<Record>` field that its methods reassign.
  Each method's `ensures` gives the new list as a function of the old one:
  `[NewTransaction(..)] + old(..)`, `UpdateFirst`, `RemoveFirst`, `DepositFirst`.
  The contracts that matter are on those functions and on the lemmas about them.
- A record is a plain JavaScript object stored as JSON: a `map<string, Value>`. A
  `Value` is a JSON scalar, and a field that is not there reads as `undefined`,
  modelled as `None`. Object spread becomes map union, so `{ ...a, ...b }` is `a + b`.
  The override order of `addTransaction` and `addGoal` (a generated id, then the
  input's fields, then `currentAmount` and `createdAt`) is therefore stated exactly.
- The date queries, totals, per-date groups, daily and monthly summaries, goal
  progress, total saved/target and the completed-goal count are functions of the
  list (the `forEach` grouping loop is a method with loop invariants).
- JavaScript's string `<=` is the lexicographic order `Lexical.LexLe`. It is proved
  to be a total order. The month range `YYYY-MM-01 .. YYYY-MM-31` is proved to hold
  exactly the string dates made of that month's `YYYY-MM-` prefix followed by a day
  part lying lexically between "01" and "31". Dates such as "2024-01-00",
  "2024-01-5" or "2024-01-" carry the prefix but fall outside the range.

Files: `lexical.dfy` (string order), `records.dfy` (what both collections share:
records, find/patch/remove by id, filter, field sums), `transactions.dfy`,
`savings_goals.dfy`.

Three behaviours of the code worth knowing:

- The storage helper has no `try`/`catch` around `JSON.parse`, so corrupt stored data does not fall back to the default.
- An `id` field in the input to `addTransaction`/`addGoal` overrides the generated id.
- `addGoal` defaults only `currentAmount`, and only when it is falsy.

## Model

| member | source | states |
|---|---|---|
| `Records.Merge` | src/composables/useTransactions.js:27 | `{ ...base, ...updates }` has the fields of both; every field of `updates` wins, and every other field keeps its old value |
| `Records.FindIndex` | src/composables/useTransactions.js:25 | the result is -1 exactly when no record has the id; otherwise it is the first index whose record has the id |
| `Records.UpdateFirst` | src/composables/useTransactions.js:24-29 | length unchanged; an absent id leaves the list identical; otherwise only the first match changes, and it becomes its merge with `updates` |
| `Records.RemoveFirst` | src/composables/useTransactions.js:32-37 | an absent id leaves the list identical; otherwise length drops by one, the records before the first match stay put and those after it move down one place in the same order |
| `Records.PrependKeepsIdsUnique` | src/composables/useTransactions.js:15-21 | prepending a record whose id nobody holds keeps ids unique: the new record at index 0 is the only one holding that id |
| `Records.UpdateKeepsIdsUnique` | src/composables/useSavingsGoals.js:25-30 | an update whose patch has no `id` field keeps ids unique |
| `Records.RemoveKeepsIdsUnique` | src/composables/useSavingsGoals.js:33-38 | a delete keeps ids unique, and with unique ids the deleted id is then absent |
| `Records.Filter` | src/composables/useTransactions.js:41 | `filter` returns no more records than the list has; a record is in the result iff it is in the list and passes; the result is empty iff no record passes |
| `Records.FilterExact` | src/composables/useTransactions.js:41 | a filter's result is an order-preserving subsequence of the list that keeps every copy of a passing record and no copy of any other record |
| `Records.FilterKeepsAll` | src/composables/useSavingsGoals.js:66 | a filter keeps the whole list iff every record passes |
| `Records.SumFieldNonNegative` | src/composables/useSavingsGoals.js:55-57 | a `reduce` sum of fields that are all non-negative is non-negative |
| `Records.SumFieldPermutation` | src/composables/useSavingsGoals.js:55-57 | the `reduce` sum of a field does not depend on the order of the records |
| `Transactions.NewTransaction` | src/composables/useTransactions.js:15-21 | the stored record has the input's fields plus `id` and `createdAt`; `createdAt` is always the supplied timestamp; `id` is the input's own id if it has one, otherwise the generated id; every other field is the input's |
| `Transactions.TransactionStore.constructor` | src/composables/useTransactions.js:9 | the collection starts as the list loaded from storage |
| `Transactions.TransactionStore.AddTransaction` | src/composables/useTransactions.js:15-21 | the new record is at index 0, and every old record moves from index i to i+1 unchanged |
| `Transactions.TransactionStore.UpdateTransaction` | src/composables/useTransactions.js:24-29 | the new list is `UpdateFirst` of the old one |
| `Transactions.TransactionStore.DeleteTransaction` | src/composables/useTransactions.js:32-37 | the new list is `RemoveFirst` of the old one |
| `Transactions.ByDate` | src/composables/useTransactions.js:40-42 | a transaction is in the result iff it is in the list and its `date === date` |
| `Transactions.ByDateExact` | src/composables/useTransactions.js:40-42 | the date query is an order-preserving subsequence of the list that keeps every copy of a matching transaction and no other |
| `Transactions.ByDateRange` | src/composables/useTransactions.js:45-47 | a transaction is in the result iff it is in the list and its date is a string with `start <= date <= end` in lexical order |
| `Transactions.ByDateRangeExact` | src/composables/useTransactions.js:45-47 | the range query is an order-preserving subsequence that keeps every copy of an in-range transaction and no other |
| `Transactions.ReversedRangeIsEmpty` | src/composables/useTransactions.js:46 | when `end < start` lexically, the range query is empty |
| `Transactions.SingleDayRange` | src/composables/useTransactions.js:40-47 | the range from d to d equals the query for date d |
| `Transactions.TotalIncome` | src/composables/useTransactions.js:50-54 | the income total is 0 when no transaction is an income, and not negative while no amount is |
| `Transactions.TotalExpense` | src/composables/useTransactions.js:57-61 | the expense total is 0 when no transaction is an expense, and not negative while no amount is |
| `Transactions.BalanceIsSignedSum` | src/composables/useTransactions.js:50-64 | `totalIncome - totalExpense` equals the one-pass sum of +amount for each income and -amount for each expense |
| `Transactions.TotalBalance` | src/composables/useTransactions.js:64 | `totalBalance` equals the one-pass signed sum of the list: +amount for each income, -amount for each expense, 0 for any other type |
| `Transactions.AddMovesTotals` | src/composables/useTransactions.js:50-61 | prepending a transaction raises the total of its own type by its amount and leaves the other total unchanged |
| `Transactions.OtherTypesCountInNeitherTotal` | src/composables/useTransactions.js:50-61 | a transaction whose type is neither income nor expense, wherever it stands, changes neither total |
| `Transactions.GroupByDate` | src/composables/useTransactions.js:67-76 | the keys are exactly the dates that occur in the list; each group is non-empty and equals the date query for its key, in list order |
| `Transactions.GroupSizesSumToLength` | src/composables/useTransactions.js:67-76 | the sizes of the groups over the distinct dates that cover the list add up to the list's length |
| `Transactions.GetDailySummary` | src/composables/useTransactions.js:79-88 | the daily summary is the income, expense and balance totals of that day's transactions |
| `Transactions.DailyBalanceIsSignedSum` | src/composables/useTransactions.js:79-88 | a day's balance is its income minus its expense, and the signed sum of that day's transactions |
| `Transactions.QuietDaySummary` | src/composables/useTransactions.js:79-88 | a date on which no transaction occurs has the summary {0, 0, 0} |
| `Transactions.IncomeThenExpenseSummary` | src/composables/useTransactions.js:79-88 | an income of a and then an expense of b on the same day give the summary {a, b, a - b} |
| `Transactions.DecimalString` | src/composables/useTransactions.js:92-93 | `String(n)` is a non-empty string of decimal digits that denotes `n`, with no leading zero, and one digit long exactly when `n < 10` |
| `Transactions.PadStart2` | src/composables/useTransactions.js:92-93 | `padStart(2, '0')` leaves a string of two or more characters as it is, and brings a shorter one to length two with zeros in front of it |
| `Transactions.PrefixRangeExact` | src/composables/useTransactions.js:45-47 | the range from `p + "01"` to `p + "31"` holds a transaction iff it is in the list and its date is `p` followed by a day part lexically from "01" to "31" |
| `Transactions.GetMonthlyData` | src/composables/useTransactions.js:91-95 | a transaction is in the monthly data iff it is in the list and its date is the month's `YYYY-MM-` prefix followed by a day part lexically from "01" to "31"; no date of another month gets in |
| `SavingsGoals.NewGoal` | src/composables/useSavingsGoals.js:15-22 | the stored goal has the input's fields plus `id`, `currentAmount` and `createdAt`; `currentAmount` is the input's when truthy, otherwise 0; `createdAt` is the supplied timestamp; an input id overrides the generated one |
| `SavingsGoals.GoalStore.constructor` | src/composables/useSavingsGoals.js:9 | the collection starts as the list loaded from storage |
| `SavingsGoals.GoalStore.AddGoal` | src/composables/useSavingsGoals.js:15-22 | the new goal is at index 0, and every old goal moves from index i to i+1 unchanged |
| `SavingsGoals.GoalStore.UpdateGoal` | src/composables/useSavingsGoals.js:25-30 | the new list is `UpdateFirst` of the old one |
| `SavingsGoals.GoalStore.DeleteGoal` | src/composables/useSavingsGoals.js:33-38 | the new list is `RemoveFirst` of the old one |
| `SavingsGoals.GoalStore.AddToGoal` | src/composables/useSavingsGoals.js:41-46 | the new list is `DepositFirst` of the old one |
| `SavingsGoals.Deposit` | src/composables/useSavingsGoals.js:44-45 | the goal's `currentAmount` becomes the number `Number(old) + amount`; every other field is unchanged |
| `SavingsGoals.DepositFirst` | src/composables/useSavingsGoals.js:41-46 | an absent id leaves the list identical; otherwise only the first matching goal takes the deposit, and the length is unchanged |
| `SavingsGoals.DepositMovesTotalSaved` | src/composables/useSavingsGoals.js:55-57 | a deposit into an existing goal raises `totalSaved` by exactly the amount; an absent id leaves it unchanged; `totalTarget` never moves |
| `SavingsGoals.GetProgress` | src/composables/useSavingsGoals.js:49-52 | progress is 0 when the target is falsy (0 included); for any truthy non-zero target, positive or negative, it is `min(100, current / target * 100)`; it never exceeds 100 |
| `SavingsGoals.ProgressClamped` | src/composables/useSavingsGoals.js:49-52 | with a positive target, progress is `min(100, current / target * 100)`; it is exactly 100 when current >= target, and at least 0 when current >= 0 |
| `SavingsGoals.AddGoalMovesTotals` | src/composables/useSavingsGoals.js:15-22 | adding a goal raises `totalSaved` by its starting amount (the input's when truthy, else 0) and `totalTarget` by its target |
| `SavingsGoals.TotalSaved` | src/composables/useSavingsGoals.js:55-57 | the total saved is not negative while no goal's saved amount is |
| `SavingsGoals.TotalTarget` | src/composables/useSavingsGoals.js:60-62 | the total target is not negative while no goal's target is |
| `SavingsGoals.TotalsIgnoreOrder` | src/composables/useSavingsGoals.js:55-62 | `totalSaved` and `totalTarget` do not depend on the order of the goals |
| `SavingsGoals.CompletedGoals` | src/composables/useSavingsGoals.js:65-67 | the count of goals with `currentAmount >= targetAmount` is at most the number of goals; it is 0 iff no goal is complete, and it equals the number of goals iff every goal is complete |
| `SavingsGoals.DepositKeepsGoalsCompleted` | src/composables/useSavingsGoals.js:41-46 | while every target is a number, a deposit of a non-negative amount never lowers the completed-goal count |
| `Lexical.LexLeTransitive` | src/composables/useTransactions.js:46 | the string order used by the date range is transitive |
| `Lexical.LexLeAntisymmetric` | src/composables/useTransactions.js:46 | the string order used by the date range is antisymmetric |
| `Lexical.LexLeTotal` | src/composables/useTransactions.js:46 | any two strings are comparable |
| `Lexical.LexBetweenHasPrefix` | src/composables/useTransactions.js:92-94 | every string between `p + a` and `p + b` starts with `p` |

## Left out

- The storage helper (src/composables/useStorage.js): `localStorage`, `JSON.parse`/`JSON.stringify` and the deep Vue `watch` are browser I/O and reactivity. Each collection starts from a given initial list, and the save-and-reload round trip is not modelled.
- Id generation (`Date.now`, `Math.random`) and `new Date().toISOString()` are nondeterministic. Both are parameters of `AddTransaction` and `AddGoal`.
- Vue `computed` caching and invalidation are left out. Each computed value is a function of the current list.
- Numbers are Dafny `real`, so floating-point rounding, `NaN` and `Infinity` are not modelled. `Number(v)` (`Records.NumberOf`) is exact for numbers, booleans and `null`. It reads strings and `undefined` as 0, where JavaScript parses the string or yields `NaN`.
- SavingsGoals.GetProgress: a string target or saved amount reads as 0 (see `NumberOf` above). A truthy string target therefore gives 0, where JavaScript converts it: `"200"` gives `min(100, current / 2)`, a blank `" "` (which converts to 0) gives 100 for a positive saved amount, `-Infinity` for a negative one and `NaN` for 0, and a non-numeric string gives `NaN`.
- SavingsGoals.JsGe: a string compared with a non-string goes through `NumberOf`, so string parsing is not modelled. Two strings compare lexically, and `undefined` compares false, as in JavaScript.
- Lexical.LexLe compares characters by code point, where JavaScript compares UTF-16 code units. The two agree on dates and on all other text outside the astral planes.
- Transactions.ByDateRange: a date that is not a string never falls in the range in the model. JavaScript compares such a date numerically against the bounds converted to numbers: `null` is in the range ("", ""), `9.5` is in the range ("9", "10") although that range is lexically reversed, and `5` is in the range ("5", "5") but not in the query for the date "5". `ReversedRangeIsEmpty` and `SingleDayRange` hold for the model, and in JavaScript only when every date is a string or `undefined`.
- Transactions.GroupByDate keys each group by the raw date value. JavaScript turns the key into a property-name string, so `5` and `"5"` (or `null` and `"null"`) share one group there. A date naming an `Object.prototype` member (such as `"constructor"`) makes the JavaScript loop push onto a function and throw. For string dates that are not prototype names, the two agree.
- Transactions.GetMonthlyData takes the year and month as non-negative integers. `String()` of other values is not modelled.
- SavingsGoals.GoalStore.AddToGoal assigns the field of the goal object found in the array. The model replaces the record at that index with its updated value, so other references to the same object (aliasing) are not modelled.
- Record fields hold JSON scalars only. Nested objects and arrays inside a record are not modelled.
- Formatting helpers (src/composables/useFormat.js), the router, the build and PWA configuration and the icon generator are outside the data layer.

/**
 The transaction collection (`useTransactions`): income and expense records,
 newest first, with add / update / delete by id, date queries and the derived
 totals, per-date groups and daily and monthly views. The generated id and the
 creation timestamp are parameters of `AddTransaction`.
 */
module Transactions {
  import opened Records
  import opened Lexical

  /**
   The record `addTransaction` stores: a generated id, which an `id` of the
   input overrides, then the input's fields, then the creation timestamp,
   which always wins.
   */
  function NewTransaction(input: Record, id: string, createdAt: string): (r: Record)
    ensures r.Keys == input.Keys + {"id", "createdAt"}
    ensures r["createdAt"] == Str(createdAt)
    ensures r["id"] == if "id" in input then input["id"] else Str(id)
    ensures forall k :: k in input && k != "createdAt" ==> r[k] == input[k]
  {
    (map["id" := Str(id)] + input)["createdAt" := Str(createdAt)]
  }

  class TransactionStore {
    /** `transactions.value`, newest first. */
    var transactions: seq<Record>

    /** The collection as loaded at start-up. */
    constructor (initial: seq<Record>)
      ensures transactions == initial
    {
      transactions := initial;
    }

    /** `addTransaction`: the new record goes in front, every other one moves up by one. */
    method AddTransaction(transaction: Record, id: string, createdAt: string)
      modifies this
      ensures transactions == [NewTransaction(transaction, id, createdAt)] + old(transactions)
    {
      transactions := [NewTransaction(transaction, id, createdAt)] + transactions;
    }

    /** `updateTransaction`: merges `updates` into the first record holding `id`, if any. */
    method UpdateTransaction(id: Option<Value>, updates: Record)
      modifies this
      ensures transactions == UpdateFirst(old(transactions), id, updates)
    {
      var index := FindIndex(transactions, id);
      if index != -1 {
        transactions := transactions[index := Merge(transactions[index], updates)];
      }
    }

    /** `deleteTransaction`: splices out the first record holding `id`, if any. */
    method DeleteTransaction(id: Option<Value>)
      modifies this
      ensures transactions == RemoveFirst(old(transactions), id)
    {
      var index := FindIndex(transactions, id);
      if index != -1 {
        transactions := transactions[..index] + transactions[index + 1..];
      }
    }
  }

  /** `getTransactionsByDate(date)`: the transactions whose `date === date`. */
  function ByDate(ts: seq<Record>, date: Option<Value>): (r: seq<Record>)
    ensures forall t :: t in r <==> t in ts && Get(t, "date") == date
  {
    Filter(ts, t => Get(t, "date") == date)
  }

  /** The date query keeps list order and every copy of a matching record. */
  lemma ByDateExact(ts: seq<Record>, date: Option<Value>, x: Record)
    ensures IsSubsequence(ByDate(ts, date), ts)
    ensures multiset(ByDate(ts, date))[x] == if Get(x, "date") == date then multiset(ts)[x] else 0
  {
    FilterExact(ts, t => Get(t, "date") == date, x);
  }

  /**
   `startDate <= t.date <= endDate` for a string date: both comparisons are
   lexical. A date that is not a string never satisfies it here.
   */
  predicate InRange(t: Record, startDate: string, endDate: string)
  {
    match Get(t, "date")
    case Some(Str(d)) => LexLe(startDate, d) && LexLe(d, endDate)
    case _ => false
  }

  /** `getTransactionsByDateRange(startDate, endDate)`, both ends included. */
  function ByDateRange(ts: seq<Record>, startDate: string, endDate: string): (r: seq<Record>)
    ensures forall t :: t in r <==> t in ts && InRange(t, startDate, endDate)
  {
    Filter(ts, t => InRange(t, startDate, endDate))
  }

  /** The range query keeps list order and every copy of a record in range. */
  lemma ByDateRangeExact(ts: seq<Record>, startDate: string, endDate: string, x: Record)
    ensures IsSubsequence(ByDateRange(ts, startDate, endDate), ts)
    ensures multiset(ByDateRange(ts, startDate, endDate))[x]
            == if InRange(x, startDate, endDate) then multiset(ts)[x] else 0
  {
    FilterExact(ts, t => InRange(t, startDate, endDate), x);
  }

  /** A range whose end sorts before its start selects nothing. */
  lemma ReversedRangeIsEmpty(ts: seq<Record>, startDate: string, endDate: string)
    requires !LexLe(startDate, endDate)
    ensures ByDateRange(ts, startDate, endDate) == []
  {
    var r := ByDateRange(ts, startDate, endDate);
    if r != [] {
      assert r[0] in r;
      var d := Get(r[0], "date").value.s;
      LexLeTransitive(startDate, d, endDate);
      assert false;
    }
  }

  /** A one-day range selects exactly the transactions of that day. */
  lemma SingleDayRange(ts: seq<Record>, date: string)
    ensures ByDateRange(ts, date, date) == ByDate(ts, Some(Str(date)))
  {
    forall t | t in ts
      ensures InRange(t, date, date) == (Get(t, "date") == Some(Str(date)))
    {
      if InRange(t, date, date) {
        LexLeAntisymmetric(date, Get(t, "date").value.s);
      } else if Get(t, "date") == Some(Str(date)) {
        LexLeReflexive(date);
      }
    }
    FilterCongruent(ts, t => InRange(t, date, date), t => Get(t, "date") == Some(Str(date)));
  }

  /** The transactions whose `type === kind`. */
  function OfType(ts: seq<Record>, kind: string): seq<Record>
  {
    Filter(ts, t => Get(t, "type") == Some(Str(kind)))
  }

  /**
   `totalIncome`: the amounts of the income transactions added up; 0 without
   any, and never negative while no amount is.
   */
  function TotalIncome(ts: seq<Record>): (total: real)
    ensures (forall t :: t in ts ==> Get(t, "type") != Some(Str("income"))) ==> total == 0.0
    ensures (forall t :: t in ts ==> NumberOf(Get(t, "amount")) >= 0.0) ==> total >= 0.0
  {
    SumFieldNonNegative(OfType(ts, "income"), "amount");
    SumField(OfType(ts, "income"), "amount")
  }

  /**
   `totalExpense`: the amounts of the expense transactions added up; 0 without
   any, and never negative while no amount is.
   */
  function TotalExpense(ts: seq<Record>): (total: real)
    ensures (forall t :: t in ts ==> Get(t, "type") != Some(Str("expense"))) ==> total == 0.0
    ensures (forall t :: t in ts ==> NumberOf(Get(t, "amount")) >= 0.0) ==> total >= 0.0
  {
    SumFieldNonNegative(OfType(ts, "expense"), "amount");
    SumField(OfType(ts, "expense"), "amount")
  }

  /** What one transaction adds to the balance: its amount, negated for an expense, 0 for any other type. */
  function SignedAmount(t: Record): real
  {
    if Get(t, "type") == Some(Str("income")) then NumberOf(Get(t, "amount"))
    else if Get(t, "type") == Some(Str("expense")) then -NumberOf(Get(t, "amount"))
    else 0.0
  }

  /** The balance computed in one pass over the list. */
  function SignedSum(ts: seq<Record>): real
  {
    if ts == [] then 0.0 else SignedAmount(ts[0]) + SignedSum(ts[1..])
  }

  /** Income minus expense is the one-pass signed sum of the list. */
  lemma {:induction false} BalanceIsSignedSum(ts: seq<Record>)
    ensures TotalIncome(ts) - TotalExpense(ts) == SignedSum(ts)
  {
    if ts != [] {
      BalanceIsSignedSum(ts[1..]);
    }
  }

  /** `totalBalance`: each income counted up and each expense down, in one pass. */
  function TotalBalance(ts: seq<Record>): (balance: real)
    ensures balance == SignedSum(ts)
  {
    BalanceIsSignedSum(ts);
    TotalIncome(ts) - TotalExpense(ts)
  }

  /** Prepending a transaction moves the total of its own type by its amount and leaves the other total alone. */
  lemma AddMovesTotals(t: Record, ts: seq<Record>)
    ensures TotalIncome([t] + ts) == TotalIncome(ts)
            + (if Get(t, "type") == Some(Str("income")) then NumberOf(Get(t, "amount")) else 0.0)
    ensures TotalExpense([t] + ts) == TotalExpense(ts)
            + (if Get(t, "type") == Some(Str("expense")) then NumberOf(Get(t, "amount")) else 0.0)
  {
  }

  /** A transaction of any type other than income or expense counts in neither total, wherever it stands. */
  lemma OtherTypesCountInNeitherTotal(a: seq<Record>, t: Record, b: seq<Record>)
    requires Get(t, "type") != Some(Str("income")) && Get(t, "type") != Some(Str("expense"))
    ensures TotalIncome(a + [t] + b) == TotalIncome(a + b)
    ensures TotalExpense(a + [t] + b) == TotalExpense(a + b)
  {
    var isIncome := (r: Record) => Get(r, "type") == Some(Str("income"));
    var isExpense := (r: Record) => Get(r, "type") == Some(Str("expense"));
    FilterAppend(a + [t], b, isIncome);
    FilterAppend(a, [t], isIncome);
    FilterAppend(a, b, isIncome);
    FilterAppend(a + [t], b, isExpense);
    FilterAppend(a, [t], isExpense);
    FilterAppend(a, b, isExpense);
    assert Filter([t], isIncome) == [] && Filter([t], isExpense) == [];
    assert Filter(a, isIncome) + [] == Filter(a, isIncome);
    assert Filter(a, isExpense) + [] == Filter(a, isExpense);
  }

  /** The dates occurring in the list, `undefined` (`None`) included when some transaction has none. */
  function DatesOf(ts: seq<Record>): set<Option<Value>>
  {
    set t | t in ts :: Get(t, "date")
  }

  lemma ByDateStep(ts: seq<Record>, t: Record, date: Option<Value>)
    ensures ByDate(ts + [t], date) == ByDate(ts, date) + (if Get(t, "date") == date then [t] else [])
  {
    FilterAppend(ts, [t], r => Get(r, "date") == date);
  }

  /**
   `transactionsByDate`: one group per date occurring in the list, holding
   exactly that date's transactions in list order.
   */
  method GroupByDate(ts: seq<Record>) returns (grouped: map<Option<Value>, seq<Record>>)
    ensures grouped.Keys == DatesOf(ts)
    ensures forall d :: d in grouped ==> grouped[d] == ByDate(ts, d) && grouped[d] != []
  {
    grouped := map[];
    var i := 0;
    while i < |ts|
      invariant 0 <= i <= |ts|
      invariant grouped.Keys == DatesOf(ts[..i])
      invariant forall d :: d in grouped ==> grouped[d] == ByDate(ts[..i], d) && grouped[d] != []
    {
      var t := ts[i];
      var date := Get(t, "date");
      assert ts[..i + 1] == ts[..i] + [t];
      if date !in grouped {
        assert ByDate(ts[..i], date) == [];
        grouped := grouped[date := []];
      }
      grouped := grouped[date := grouped[date] + [t]];
      forall d | d in grouped
        ensures grouped[d] == ByDate(ts[..i + 1], d)
      {
        ByDateStep(ts[..i], t, d);
      }
      i := i + 1;
    }
    assert ts[..i] == ts;
  }

  /** No value occurs twice in `ks`. */
  predicate Distinct(ks: seq<Option<Value>>)
  {
    forall i, j :: 0 <= i < j < |ks| ==> ks[i] != ks[j]
  }

  /** The sizes of the groups of the dates `ks`, added up. */
  function GroupSizes(ts: seq<Record>, ks: seq<Option<Value>>): nat
  {
    if ks == [] then 0 else |ByDate(ts, ks[0])| + GroupSizes(ts, ks[1..])
  }

  /** How many times `d` occurs in `ks`. */
  function Occurrences(ks: seq<Option<Value>>, d: Option<Value>): nat
  {
    if ks == [] then 0 else (if ks[0] == d then 1 else 0) + Occurrences(ks[1..], d)
  }

  lemma {:induction false} OccursOnce(ks: seq<Option<Value>>, d: Option<Value>)
    requires Distinct(ks)
    ensures Occurrences(ks, d) == if d in ks then 1 else 0
  {
    if ks != [] {
      OccursOnce(ks[1..], d);
      if ks[0] == d {
        assert forall j :: 0 <= j < |ks[1..]| ==> ks[1..][j] == ks[j + 1] != ks[0];
      }
    }
  }

  lemma {:induction false} GroupSizesStep(t: Record, ts: seq<Record>, ks: seq<Option<Value>>)
    ensures GroupSizes([t] + ts, ks) == GroupSizes(ts, ks) + Occurrences(ks, Get(t, "date"))
  {
    if ks != [] {
      GroupSizesStep(t, ts, ks[1..]);
      assert ([t] + ts)[0] == t && ([t] + ts)[1..] == ts;
    }
  }

  lemma {:induction false} GroupSizesOfEmpty(ks: seq<Option<Value>>)
    ensures GroupSizes([], ks) == 0
  {
    if ks != [] {
      GroupSizesOfEmpty(ks[1..]);
    }
  }

  /** The groups of the distinct dates `ks` that cover the list partition it: their sizes add up to its length. */
  lemma {:induction false} GroupSizesSumToLength(ts: seq<Record>, ks: seq<Option<Value>>)
    requires Distinct(ks)
    requires forall t :: t in ts ==> Get(t, "date") in ks
    ensures GroupSizes(ts, ks) == |ts|
  {
    if ts == [] {
      GroupSizesOfEmpty(ks);
    } else {
      var t := ts[0];
      assert ts == [t] + ts[1..];
      GroupSizesSumToLength(ts[1..], ks);
      GroupSizesStep(t, ts[1..], ks);
      OccursOnce(ks, Get(t, "date"));
    }
  }

  datatype Summary = Summary(income: real, expense: real, balance: real)

  /** `getDailySummary(date)`: the income, expense and balance of the transactions of one day. */
  function GetDailySummary(ts: seq<Record>, date: Option<Value>): (s: Summary)
    ensures var day := ByDate(ts, date);
      s == Summary(TotalIncome(day), TotalExpense(day), TotalBalance(day))
  {
    var day := ByDate(ts, date);
    var income := SumField(OfType(day, "income"), "amount");
    var expense := SumField(OfType(day, "expense"), "amount");
    Summary(income, expense, income - expense)
  }

  /** A day's balance is income minus expense, and the signed sum of that day's transactions. */
  lemma DailyBalanceIsSignedSum(ts: seq<Record>, date: Option<Value>)
    ensures GetDailySummary(ts, date).balance
            == GetDailySummary(ts, date).income - GetDailySummary(ts, date).expense
            == SignedSum(ByDate(ts, date))
  {
  }

  /** A day on which nothing happened has an all-zero summary. */
  lemma QuietDaySummary(ts: seq<Record>, date: Option<Value>)
    requires date !in DatesOf(ts)
    ensures GetDailySummary(ts, date) == Summary(0.0, 0.0, 0.0)
  {
  }

  function Digit(n: nat): (c: char)
    requires n < 10
    ensures '0' <= c <= '9' && c as int - '0' as int == n
  {
    ('0' as int + n) as char
  }

  predicate IsDigits(s: string)
  {
    forall i :: 0 <= i < |s| ==> '0' <= s[i] <= '9'
  }

  /** The number a string of decimal digits denotes. */
  function DecimalValue(s: string): nat
    requires IsDigits(s)
  {
    if s == [] then 0 else 10 * DecimalValue(s[..|s| - 1]) + (s[|s| - 1] as int - '0' as int)
  }

  /**
   `String(n)` for a non-negative integer: decimal digits without a leading
   zero that denote `n`, one digit exactly when `n < 10`.
   */
  function DecimalString(n: nat): (s: string)
    ensures |s| >= 1 && IsDigits(s) && DecimalValue(s) == n
    ensures s[0] == '0' ==> n == 0
    ensures |s| == 1 <==> n < 10
  {
    if n < 10 then [Digit(n)]
    else
      var s := DecimalString(n / 10) + [Digit(n % 10)];
      assert s[..|s| - 1] == DecimalString(n / 10);
      s
  }

  /** `padStart(2, '0')`: a string of two or more characters stays; a shorter one gets zeros in front up to two. */
  function PadStart2(s: string): (r: string)
    ensures |s| >= 2 ==> r == s
    ensures |s| < 2 ==> |r| == 2 && r[2 - |s|..] == s && forall i :: 0 <= i < 2 - |s| ==> r[i] == '0'
  {
    if |s| >= 2 then s else seq(2 - |s|, _ => '0') + s
  }

  /** `${year}-${MM}-`, the part the month's first and last date strings share. */
  function MonthPrefix(year: nat, month: nat): string
  {
    DecimalString(year) + "-" + PadStart2(DecimalString(month)) + "-"
  }

  /** A date string of the month: the month's prefix followed by a day between "01" and "31". */
  predicate InMonth(t: Record, prefix: string)
  {
    match Get(t, "date")
    case Some(Str(d)) =>
      |prefix| <= |d| && d[..|prefix|] == prefix && LexLe("01", d[|prefix|..]) && LexLe(d[|prefix|..], "31")
    case _ => false
  }

  /**
   The range from `p + "01"` to `p + "31"` holds exactly the transactions whose
   date is `p` followed by a day part from "01" to "31"; no date without the
   prefix `p` gets in.
   */
  lemma PrefixRangeExact(ts: seq<Record>, p: string)
    ensures forall t :: t in ByDateRange(ts, p + "01", p + "31") <==> t in ts && InMonth(t, p)
  {
    forall t | t in ts
      ensures InRange(t, p + "01", p + "31") == InMonth(t, p)
    {
      if Get(t, "date").Some? && Get(t, "date").value.Str? {
        var d := Get(t, "date").value.s;
        if InRange(t, p + "01", p + "31") {
          LexBetweenHasPrefix(p, "01", "31", d);
        }
        if |p| <= |d| && d[..|p|] == p {
          assert d == p + d[|p|..];
          LexLeCommonPrefix(p, "01", d[|p|..]);
          LexLeCommonPrefix(p, d[|p|..], "31");
        }
      }
    }
  }

  /**
   `getMonthlyData(year, month)`: the range query from `${year}-${MM}-01` to
   `${year}-${MM}-31`, which holds exactly the transactions dated in that month;
   nothing from another month leaks in.
   */
  function GetMonthlyData(ts: seq<Record>, year: nat, month: nat): (r: seq<Record>)
    ensures forall t :: t in r <==> t in ts && InMonth(t, MonthPrefix(year, month))
  {
    PrefixRangeExact(ts, MonthPrefix(year, month));
    ByDateRange(ts, MonthPrefix(year, month) + "01", MonthPrefix(year, month) + "31")
  }

  /** An expense recorded after an income on the same day: the day's summary nets the two. */
  lemma IncomeThenExpenseSummary(expense: Record, income: Record, date: Option<Value>, a: real, b: real)
    requires Get(income, "type") == Some(Str("income")) && Get(income, "amount") == Some(Num(a))
    requires Get(expense, "type") == Some(Str("expense")) && Get(expense, "amount") == Some(Num(b))
    requires Get(income, "date") == date && Get(expense, "date") == date
    ensures GetDailySummary([expense, income], date) == Summary(a, b, a - b)
  {
    var ts := [expense, income];
    assert ByDate(ts, date) == ts;
    assert OfType(ts, "income") == [income];
    assert OfType(ts, "expense") == [expense];
    assert [income][1..] == [] && [expense][1..] == [];
    assert SumField([income], "amount") == a && SumField([expense], "amount") == b;
    assert TotalIncome(ts) == a && TotalExpense(ts) == b;
  }

  /** Adding an income and an expense on one day gives that day's summary. */
  method DailySummaryScenario()
  {
    var day := Some(Str("2024-01-01"));
    var store := new TransactionStore([]);
    store.AddTransaction(map["type" := Str("income"), "amount" := Num(100.0), "date" := Str("2024-01-01")],
                         "a", "2024-01-01T09:00:00.000Z");
    store.AddTransaction(map["type" := Str("expense"), "amount" := Num(30.0), "date" := Str("2024-01-01")],
                         "b", "2024-01-01T10:00:00.000Z");
    var ts := store.transactions;
    assert |ts| == 2 && ts == [ts[0], ts[1]];
    assert Get(ts[0], "type") == Some(Str("expense")) && Get(ts[0], "amount") == Some(Num(30.0));
    assert Get(ts[1], "type") == Some(Str("income")) && Get(ts[1], "amount") == Some(Num(100.0));
    assert Get(ts[0], "date") == day && Get(ts[1], "date") == day;
    IncomeThenExpenseSummary(ts[0], ts[1], day, 100.0, 30.0);
    var summary := GetDailySummary(ts, day);
    assert summary == Summary(100.0, 30.0, 70.0);
  }
}

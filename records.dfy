/**
 What the two record collections (transactions and savings goals) have in common:
 a record is a plain JavaScript object stored as JSON, a collection is an array of
 records, newest first, and both collections find, patch and remove a record by
 its `id` in the same way, and sum a numeric field with `reduce`.
 */
module Records {

  datatype Option<+T> = None | Some(value: T)

  /** A JSON scalar: what a stored record's fields hold. */
  datatype Value = Null | Bool(b: bool) | Num(x: real) | Str(s: string)

  /** A record: field name to value. A field that is not there reads as `undefined`. */
  type Record = map<string, Value>

  /** `r[key]`, with `None` standing for `undefined`. */
  function Get(r: Record, key: string): Option<Value>
  {
    if key in r then Some(r[key]) else None
  }

  /** JavaScript truthiness of a field value. */
  predicate Truthy(v: Option<Value>)
  {
    match v
    case None => false
    case Some(Null) => false
    case Some(Bool(b)) => b
    case Some(Num(x)) => x != 0.0
    case Some(Str(s)) => s != ""
  }

  /** `Number(v)` for the values the model reads as numbers (strings and `undefined` read as 0). */
  function NumberOf(v: Option<Value>): real
  {
    match v
    case Some(Num(x)) => x
    case Some(Bool(b)) => if b then 1.0 else 0.0
    case _ => 0.0
  }

  /** The shallow merge `{ ...base, ...updates }`: every field of `updates` wins. */
  function Merge(base: Record, updates: Record): (r: Record)
    ensures r.Keys == base.Keys + updates.Keys
    ensures forall k :: k in updates ==> r[k] == updates[k]
    ensures forall k :: k in base && k !in updates ==> r[k] == base[k]
  {
    base + updates
  }

  /** `r.id === id`. */
  predicate HasId(r: Record, id: Option<Value>)
  {
    Get(r, "id") == id
  }

  /** `findIndex(r => r.id === id)`: the first index holding `id`, or -1. */
  function FindIndex(s: seq<Record>, id: Option<Value>): (i: int)
    ensures -1 <= i < |s|
    ensures i == -1 <==> forall j :: 0 <= j < |s| ==> !HasId(s[j], id)
    ensures 0 <= i ==> HasId(s[i], id) && forall j :: 0 <= j < i ==> !HasId(s[j], id)
  {
    if s == [] then -1
    else if HasId(s[0], id) then 0
    else
      var i := FindIndex(s[1..], id);
      if i == -1 then -1 else i + 1
  }

  /**
   The collection after an update by id: the first record holding `id` is
   replaced by its merge with `updates`; without such a record nothing changes.
   */
  function UpdateFirst(s: seq<Record>, id: Option<Value>, updates: Record): (r: seq<Record>)
    ensures |r| == |s|
    ensures FindIndex(s, id) == -1 ==> r == s
    ensures var i := FindIndex(s, id);
      0 <= i ==> r[i] == Merge(s[i], updates) && forall j :: 0 <= j < |s| && j != i ==> r[j] == s[j]
  {
    var i := FindIndex(s, id);
    if i == -1 then s else s[i := Merge(s[i], updates)]
  }

  /**
   The collection after a delete by id: the first record holding `id` is cut
   out and the others keep their order; without such a record nothing changes.
   */
  function RemoveFirst(s: seq<Record>, id: Option<Value>): (r: seq<Record>)
    ensures FindIndex(s, id) == -1 ==> r == s
    ensures var i := FindIndex(s, id);
      0 <= i ==> |r| == |s| - 1
                 && (forall j :: 0 <= j < i ==> r[j] == s[j])
                 && (forall j :: i <= j < |r| ==> r[j] == s[j + 1])
  {
    var i := FindIndex(s, id);
    if i == -1 then s else s[..i] + s[i + 1..]
  }

  /** No two records of the collection share an id (at most one has none). */
  ghost predicate UniqueIds(s: seq<Record>)
  {
    forall i, j :: 0 <= i < j < |s| ==> Get(s[i], "id") != Get(s[j], "id")
  }

  /**
   Prepending a record whose id nobody holds keeps the ids unique: the new
   record is the only one holding its id.
   */
  lemma PrependKeepsIdsUnique(s: seq<Record>, r: Record)
    requires UniqueIds(s)
    requires forall j :: 0 <= j < |s| ==> !HasId(s[j], Get(r, "id"))
    ensures UniqueIds([r] + s)
    ensures forall j :: 0 <= j < |[r] + s| ==> (HasId(([r] + s)[j], Get(r, "id")) <==> j == 0)
  {
  }

  /** An update whose patch leaves `id` alone keeps the ids unique. */
  lemma UpdateKeepsIdsUnique(s: seq<Record>, id: Option<Value>, updates: Record)
    requires UniqueIds(s)
    requires "id" !in updates
    ensures UniqueIds(UpdateFirst(s, id, updates))
  {
  }

  /** A delete keeps the ids unique, and then no record holds the deleted id. */
  lemma RemoveKeepsIdsUnique(s: seq<Record>, id: Option<Value>)
    requires UniqueIds(s)
    ensures UniqueIds(RemoveFirst(s, id))
    ensures FindIndex(RemoveFirst(s, id), id) == -1
  {
  }

  /** `filter(p)`: the records satisfying `p`, in collection order. */
  function Filter(s: seq<Record>, p: Record -> bool): (r: seq<Record>)
    ensures |r| <= |s|
    ensures forall x :: x in r <==> x in s && p(x)
    ensures r == [] <==> forall x :: x in s ==> !p(x)
  {
    if s == [] then []
    else if p(s[0]) then [s[0]] + Filter(s[1..], p)
    else Filter(s[1..], p)
  }

  /** A filter keeps the whole collection exactly when every record passes. */
  lemma {:induction false} FilterKeepsAll(s: seq<Record>, p: Record -> bool)
    ensures |Filter(s, p)| == |s| <==> forall x :: x in s ==> p(x)
  {
    if s != [] {
      FilterKeepsAll(s[1..], p);
      assert s == [s[0]] + s[1..];
    }
  }

  /**
   When every record that passes in `a` still passes at the same index of `b`,
   the filter of `b` keeps at least as many records.
   */
  lemma {:induction false} FilterCountMonotone(a: seq<Record>, b: seq<Record>, p: Record -> bool)
    requires |a| == |b|
    requires forall i :: 0 <= i < |a| && p(a[i]) ==> p(b[i])
    ensures |Filter(a, p)| <= |Filter(b, p)|
  {
    if a != [] {
      FilterCountMonotone(a[1..], b[1..], p);
    }
  }

  /** `a` is `b` with some records left out, the rest in the same order. */
  ghost predicate IsSubsequence(a: seq<Record>, b: seq<Record>)
    decreases |b|
  {
    a == [] || (b != [] && ((a[0] == b[0] && IsSubsequence(a[1..], b[1..])) || IsSubsequence(a, b[1..])))
  }

  /**
   A filter keeps the order of the collection, and keeps every copy of a record
   that satisfies `p` and no copy of one that does not.
   */
  lemma {:induction false} FilterExact(s: seq<Record>, p: Record -> bool, x: Record)
    ensures IsSubsequence(Filter(s, p), s)
    ensures multiset(Filter(s, p))[x] == if p(x) then multiset(s)[x] else 0
  {
    if s != [] {
      FilterExact(s[1..], p, x);
      assert s == [s[0]] + s[1..];
      assert multiset(s) == multiset{s[0]} + multiset(s[1..]);
      if p(s[0]) {
        assert Filter(s, p)[1..] == Filter(s[1..], p);
      }
    }
  }

  lemma {:induction false} FilterAppend(a: seq<Record>, b: seq<Record>, p: Record -> bool)
    ensures Filter(a + b, p) == Filter(a, p) + Filter(b, p)
  {
    if a == [] {
      assert a + b == b;
    } else {
      assert (a + b)[0] == a[0] && (a + b)[1..] == a[1..] + b;
      FilterAppend(a[1..], b, p);
    }
  }

  /** Two tests that agree on every record of the collection select the same records. */
  lemma {:induction false} FilterCongruent(s: seq<Record>, p: Record -> bool, q: Record -> bool)
    requires forall x :: x in s ==> p(x) == q(x)
    ensures Filter(s, p) == Filter(s, q)
  {
    if s != [] {
      assert forall x :: x in s[1..] ==> x in s;
      FilterCongruent(s[1..], p, q);
    }
  }

  /** `reduce((sum, r) => sum + Number(r[key]), 0)`. */
  function SumField(s: seq<Record>, key: string): real
  {
    if s == [] then 0.0 else NumberOf(Get(s[0], key)) + SumField(s[1..], key)
  }

  /** A sum of fields that are all non-negative is non-negative. */
  lemma {:induction false} SumFieldNonNegative(s: seq<Record>, key: string)
    ensures (forall r :: r in s ==> NumberOf(Get(r, key)) >= 0.0) ==> SumField(s, key) >= 0.0
  {
    if s != [] {
      assert forall r :: r in s[1..] ==> r in s;
      SumFieldNonNegative(s[1..], key);
    }
  }

  lemma {:induction false} SumFieldAppend(a: seq<Record>, b: seq<Record>, key: string)
    ensures SumField(a + b, key) == SumField(a, key) + SumField(b, key)
  {
    if a == [] {
      assert a + b == b;
    } else {
      assert (a + b)[0] == a[0] && (a + b)[1..] == a[1..] + b;
      SumFieldAppend(a[1..], b, key);
    }
  }

  /** Taking one record out of the list takes its field out of the sum. */
  lemma SumFieldWithout(b: seq<Record>, i: nat, key: string)
    requires i < |b|
    ensures SumField(b, key) == NumberOf(Get(b[i], key)) + SumField(b[..i] + b[i + 1..], key)
  {
    assert b == b[..i] + [b[i]] + b[i + 1..];
    SumFieldAppend(b[..i] + [b[i]], b[i + 1..], key);
    SumFieldAppend(b[..i], [b[i]], key);
    SumFieldAppend(b[..i], b[i + 1..], key);
  }

  lemma MultisetWithout(a: seq<Record>, b: seq<Record>, i: nat)
    requires multiset(a) == multiset(b) && a != [] && i < |b| && b[i] == a[0]
    ensures multiset(a[1..]) == multiset(b[..i] + b[i + 1..])
  {
    var x := a[0];
    assert a == [x] + a[1..];
    assert multiset(a) == multiset{x} + multiset(a[1..]);
    assert b == b[..i] + ([x] + b[i + 1..]);
    assert multiset(b) == multiset(b[..i]) + (multiset{x} + multiset(b[i + 1..]));
    assert multiset(b[..i] + b[i + 1..]) == multiset(b[..i]) + multiset(b[i + 1..]);
    assert multiset(a[1..]) == multiset(a) - multiset{x};
    assert multiset(b[..i] + b[i + 1..]) == multiset(b) - multiset{x};
  }

  /** A sum does not depend on the order of the records. */
  lemma {:induction false} SumFieldPermutation(a: seq<Record>, b: seq<Record>, key: string)
    requires multiset(a) == multiset(b)
    ensures SumField(a, key) == SumField(b, key)
    decreases |a|
  {
    if a == [] {
      assert |b| == |multiset(b)| == 0;
    } else {
      var x := a[0];
      assert x in multiset(b);
      var i :| 0 <= i < |b| && b[i] == x;
      var rest := b[..i] + b[i + 1..];
      MultisetWithout(a, b, i);
      SumFieldPermutation(a[1..], rest, key);
      SumFieldWithout(b, i, key);
    }
  }
}

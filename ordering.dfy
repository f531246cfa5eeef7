/** Row order of a pandas table after `sort_values("date")`: dates ascending,
    missing dates (NaT) last, and rows with equal dates kept in file order.
    Orders are sequences of row positions. */
module Ordering {
  import opened Common

  /** `a` sorts strictly before `b`: an earlier date, or a date before NaT. */
  predicate DateLt(a: Option<int>, b: Option<int>) {
    a.Some? && (b.None? || a.value < b.value)
  }

  /** `a` sorts no later than `b`. */
  predicate DateLe(a: Option<int>, b: Option<int>) {
    b.None? || (a.Some? && a.value <= b.value)
  }

  /** Row i comes before row j in the date-sorted table. */
  predicate Precedes(keys: seq<Option<int>>, i: nat, j: nat)
    requires i < |keys| && j < |keys|
  {
    DateLt(keys[i], keys[j]) || (keys[i] == keys[j] && i < j)
  }

  lemma PrecedesTotal(keys: seq<Option<int>>, i: nat, j: nat)
    requires i < |keys| && j < |keys| && i != j
    ensures Precedes(keys, i, j) != Precedes(keys, j, i)
  {
  }

  predicate InRange(keys: seq<Option<int>>, s: seq<nat>) {
    forall k :: 0 <= k < |s| ==> s[k] < |keys|
  }

  /** Every earlier position of `s` precedes every later one. */
  predicate Chain(keys: seq<Option<int>>, s: seq<nat>)
    requires InRange(keys, s)
  {
    forall a, b :: 0 <= a < b < |s| ==> Precedes(keys, s[a], s[b])
  }

  /** `ord` lists every row exactly once, in sorted order. */
  predicate IsSortedOrder(keys: seq<Option<int>>, ord: seq<nat>) {
    && |ord| == |keys|
    && InRange(keys, ord)
    && Chain(keys, ord)
    && (forall i :: 0 <= i < |keys| ==> i in ord)
  }

  function Insert(keys: seq<Option<int>>, s: seq<nat>, x: nat): (r: seq<nat>)
    requires InRange(keys, s) && Chain(keys, s) && x < |keys| && x !in s
    ensures InRange(keys, r) && Chain(keys, r)
    ensures |r| == |s| + 1
    ensures forall y :: y in r <==> y in s || y == x
  {
    if s == [] then [x]
    else if Precedes(keys, x, s[0]) then
      assert forall k :: 0 <= k < |s| ==> Precedes(keys, x, s[k]) by {
        forall k | 0 < k < |s| ensures Precedes(keys, x, s[k]) {
          assert Precedes(keys, s[0], s[k]);
        }
      }
      [x] + s
    else
      var rest := Insert(keys, s[1..], x);
      assert forall y :: y in s[1..] ==> y in s;
      assert Precedes(keys, s[0], x) by { PrecedesTotal(keys, x, s[0]); }
      assert forall k :: 0 <= k < |rest| ==> Precedes(keys, s[0], rest[k]) by {
        forall k | 0 <= k < |rest| ensures Precedes(keys, s[0], rest[k]) {
          if rest[k] != x {
            assert rest[k] in s[1..];
            var m :| 0 <= m < |s[1..]| && s[1..][m] == rest[k];
            assert Precedes(keys, s[0], s[m + 1]);
          }
        }
      }
      [s[0]] + rest
  }

  function SortPrefix(keys: seq<Option<int>>, n: nat): (r: seq<nat>)
    requires n <= |keys|
    ensures InRange(keys, r) && Chain(keys, r) && |r| == n
    ensures forall y: nat :: y in r <==> y < n
  {
    if n == 0 then [] else Insert(keys, SortPrefix(keys, n - 1), n - 1)
  }

  /** The row order `sort_values("date")` produces (stable on ties). */
  function SortedOrder(keys: seq<Option<int>>): (ord: seq<nat>)
    ensures IsSortedOrder(keys, ord)
    ensures forall a, b :: 0 <= a < b < |ord| ==> DateLe(keys[ord[a]], keys[ord[b]])
  {
    SortPrefix(keys, |keys|)
  }

  /** The row that comes last, in sorted order, among the eligible rows. */
  function Latest(keys: seq<Option<int>>, eligible: seq<bool>): (r: Option<nat>)
    requires |eligible| == |keys|
    ensures r.None? <==> forall i :: 0 <= i < |keys| ==> !eligible[i]
    ensures r.Some? ==> r.value < |keys| && eligible[r.value]
    ensures r.Some? ==> forall i :: 0 <= i < |keys| && eligible[i] && i != r.value ==> Precedes(keys, i, r.value)
    decreases |keys|
  {
    if |keys| == 0 then None
    else
      var n := |keys| - 1;
      var prev := Latest(keys[..n], eligible[..n]);
      assert forall i :: 0 <= i < n ==> keys[..n][i] == keys[i] && eligible[..n][i] == eligible[i];
      if eligible[n] && (prev.None? || DateLe(keys[prev.value], keys[n])) then Some(n)
      else prev
  }

  /** Latest is the last eligible row of the sorted table: no eligible row
      stands after it in SortedOrder. */
  lemma LatestIsLastSorted(keys: seq<Option<int>>, eligible: seq<bool>, p: nat)
    requires |eligible| == |keys|
    requires Latest(keys, eligible).Some?
    requires p < |keys| && SortedOrder(keys)[p] == Latest(keys, eligible).value
    ensures forall q :: p < q < |keys| ==> !eligible[SortedOrder(keys)[q]]
  {
    var ord := SortedOrder(keys);
    var j := Latest(keys, eligible).value;
    forall q | p < q < |keys| ensures !eligible[ord[q]] {
      assert Precedes(keys, j, ord[q]);
      if eligible[ord[q]] {
        PrecedesTotal(keys, j, ord[q]);
      }
    }
  }
}

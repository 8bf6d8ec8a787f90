/**
 * `Array.prototype.sort` with a comparator, as the pages use it: a stable
 * sort in which `le(a, b)` says the comparator lets `a` stay before `b`
 * (it returned a value <= 0). The sort is insertion sort on sequences.
 */
module Sorting {

  /** Every two elements of `s` are comparable one way or the other. */
  ghost predicate TotalOn<T>(le: (T, T) -> bool, s: seq<T>)
  {
    forall i, j :: 0 <= i < |s| && 0 <= j < |s| ==> le(s[i], s[j]) || le(s[j], s[i])
  }

  /** Each element may stay before the next one. */
  ghost predicate SortedBy<T>(s: seq<T>, le: (T, T) -> bool)
  {
    forall i :: 0 < i < |s| ==> le(s[i - 1], s[i])
  }

  /** Inserts `x` before the first element it may precede. */
  function Insert<T>(x: T, r: seq<T>, le: (T, T) -> bool): (out: seq<T>)
    ensures |out| == |r| + 1
    ensures multiset(out) == multiset(r) + multiset{x}
    ensures out[0] == x || (r != [] && out[0] == r[0])
  {
    if r == [] then [x]
    else if le(x, r[0]) then [x] + r
    else
      assert r == [r[0]] + r[1..];
      [r[0]] + Insert(x, r[1..], le)
  }

  /** The sorted sequence: the first element inserted into the sorted rest. */
  function SortBy<T>(s: seq<T>, le: (T, T) -> bool): (r: seq<T>)
    ensures |r| == |s|
    ensures multiset(r) == multiset(s)
  {
    if s == [] then []
    else
      assert s == [s[0]] + s[1..];
      Insert(s[0], SortBy(s[1..], le), le)
  }

  lemma {:induction false} InsertSorted<T>(x: T, r: seq<T>, le: (T, T) -> bool)
    requires SortedBy(r, le)
    requires forall j :: 0 <= j < |r| ==> le(x, r[j]) || le(r[j], x)
    ensures SortedBy(Insert(x, r, le), le)
  {
    if r != [] && !le(x, r[0]) {
      assert le(r[0], x);
      InsertSorted(x, r[1..], le);
      var rest := Insert(x, r[1..], le);
      assert rest[0] == x || rest[0] == r[1];
    }
  }

  /** The result is ordered whenever the comparator is total on the input. */
  lemma {:induction false} SortBySorted<T>(s: seq<T>, le: (T, T) -> bool)
    requires TotalOn(le, s)
    ensures SortedBy(SortBy(s, le), le)
  {
    if s != [] {
      assert TotalOn(le, s[1..]) by {
        forall i, j | 0 <= i < |s| - 1 && 0 <= j < |s| - 1
          ensures le(s[1..][i], s[1..][j]) || le(s[1..][j], s[1..][i])
        {
          assert s[1..][i] == s[i + 1] && s[1..][j] == s[j + 1];
        }
      }
      SortBySorted(s[1..], le);
      var r := SortBy(s[1..], le);
      forall j | 0 <= j < |r| ensures le(s[0], r[j]) || le(r[j], s[0]) {
        assert r[j] in multiset(s[1..]);
        var i :| 1 <= i < |s| && s[i] == r[j];
      }
      InsertSorted(s[0], r, le);
    }
  }

  /** For a transitive comparator, a sorted sequence is ordered pairwise, not only neighbour by neighbour. */
  lemma {:induction false} SortedPairwise<T>(s: seq<T>, le: (T, T) -> bool, i: nat, j: nat)
    requires SortedBy(s, le)
    requires forall a, b, c :: le(a, b) && le(b, c) ==> le(a, c)
    requires i < j < |s|
    ensures le(s[i], s[j])
    decreases j - i
  {
    if i + 1 < j {
      SortedPairwise(s, le, i + 1, j);
    }
  }
}

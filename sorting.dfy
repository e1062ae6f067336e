/** `[...s].sort(compare)` on a copy: an insertion sort by a comparator
    given as "less than or equal"; the order of ties is not specified. */
module Sorting {

  /** `le` is total and transitive on the elements of `s`. */
  ghost predicate TotalPreorderOn<T>(s: seq<T>, le: (T, T) -> bool) {
    (forall a, b :: a in s && b in s ==> le(a, b) || le(b, a)) &&
    (forall a, b, c :: a in s && b in s && c in s && le(a, b) && le(b, c) ==> le(a, c))
  }

  ghost predicate Sorted<T>(s: seq<T>, le: (T, T) -> bool) {
    forall i, j :: 0 <= i < j < |s| ==> le(s[i], s[j])
  }

  /** `x` placed before the first element it does not exceed. */
  function Insert<T>(x: T, r: seq<T>, le: (T, T) -> bool): (o: seq<T>)
    ensures multiset(o) == multiset(r) + multiset{x}
  {
    if r == [] then [x]
    else if le(x, r[0]) then [x] + r
    else
      assert r == [r[0]] + r[1..];
      [r[0]] + Insert(x, r[1..], le)
  }

  lemma {:induction false} InsertSorted<T>(x: T, r: seq<T>, le: (T, T) -> bool)
    requires TotalPreorderOn([x] + r, le)
    requires Sorted(r, le)
    ensures Sorted(Insert(x, r, le), le)
  {
    if r != [] && !le(x, r[0]) {
      var t := r[1..];
      assert forall a :: a in [x] + t ==> a in [x] + r;
      InsertSorted(x, t, le);
      var o := Insert(x, t, le);
      assert le(r[0], x);
      forall a | a in o ensures le(r[0], a) {
        assert a in multiset(o);
        assert a == x || a in t;
      }
    }
  }

  /** The sorted copy: a permutation of `s`, in non-decreasing order. */
  function Sort<T>(s: seq<T>, le: (T, T) -> bool): (r: seq<T>)
    requires TotalPreorderOn(s, le)
    ensures multiset(r) == multiset(s)
    ensures Sorted(r, le)
  {
    if s == [] then []
    else
      assert s == [s[0]] + s[1..];
      var tail := Sort(s[1..], le);
      assert forall a :: a in [s[0]] + tail ==> a in s by {
        forall a | a in [s[0]] + tail ensures a in s {
          assert a == s[0] || a in multiset(tail);
        }
      }
      InsertSorted(s[0], tail, le);
      Insert(s[0], tail, le)
  }
}

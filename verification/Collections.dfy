/** Options, and sequences without repetition. */
module Collections {

  datatype Option<+T> = None | Some(value: T)

  predicate Distinct<T(==)>(s: seq<T>) {
    forall i, j :: 0 <= i < j < |s| ==> s[i] != s[j]
  }

  function Elems<T(==)>(s: seq<T>): set<T> {
    set x | x in s
  }

  /** `s` lists each element of `all` once. */
  predicate Enumerates<T(==)>(s: seq<T>, all: set<T>) {
    Distinct(s) && (forall x :: x in s ==> x in all) && (forall x :: x in all ==> x in s)
  }

  /** The elements of `s` outside `out`, in order. */
  function Without<T(==,!new)>(s: seq<T>, out: set<T>): (r: seq<T>)
    ensures forall x :: x in r <==> x in s && x !in out
  {
    if s == [] then []
    else (if s[0] in out then [] else [s[0]]) + Without(s[1..], out)
  }

  lemma WithoutDistinct<T(!new)>(s: seq<T>, out: set<T>)
    requires Distinct(s)
    ensures Distinct(Without(s, out))
  {
    if s != [] {
      WithoutDistinct(s[1..], out);
      assert s[0] !in s[1..];
    }
  }

  lemma {:induction false} DistinctSize<T>(s: seq<T>)
    requires Distinct(s)
    ensures |Elems(s)| == |s|
  {
    if s != [] {
      var front, last := s[..|s| - 1], s[|s| - 1];
      DistinctSize(front);
      assert s == front + [last];
      assert Elems(s) == Elems(front) + {last};
    }
  }

  lemma Subset<T>(a: set<T>, b: set<T>)
    requires a <= b
    ensures |a| <= |b| && (|a| == |b| ==> a == b)
  {
    assert b == a + (b - a);
  }

  /** What is left when the first element is taken off. */
  lemma DistinctTail<T>(s: seq<T>, x: T)
    requires Distinct(s) && s != []
    ensures Distinct(s[1..])
    ensures x in s[1..] <==> x in s && x != s[0]
  {
    if x in s && x != s[0] {
      var i :| 0 <= i < |s| && s[i] == x;
      assert s[1..][i - 1] == x;
    }
  }
}

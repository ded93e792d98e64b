/** Distinctness and first occurrences in sequences: the vocabulary for
    "the distinct keys of a list, in first-seen order". */
module Sequences {

  /** No element occurs twice. */
  predicate AllDistinct<T(==)>(s: seq<T>) {
    forall i, j :: 0 <= i < j < |s| ==> s[i] != s[j]
  }

  /** Position of the first occurrence of `x` in `s`. */
  function FirstIndex<T(==)>(s: seq<T>, x: T): (k: nat)
    requires x in s
    ensures k < |s| && s[k] == x
    ensures forall m :: 0 <= m < k ==> s[m] != x
  {
    if s[0] == x then 0 else 1 + FirstIndex(s[1..], x)
  }

  /** The elements of `s` with every repeat dropped, kept where they
      first occur. */
  function Dedup<T(==)>(s: seq<T>): (r: seq<T>)
    ensures |r| <= |s|
  {
    if |s| == 0 then []
    else
      var rest := Dedup(s[..|s| - 1]);
      if s[|s| - 1] in rest then rest else rest + [s[|s| - 1]]
  }

  /** `Dedup` keeps exactly the elements of its input. */
  lemma {:induction false} DedupSameElements<T>(s: seq<T>)
    ensures forall x :: x in Dedup(s) <==> x in s
  {
    if |s| > 0 {
      var p := s[..|s| - 1];
      DedupSameElements(p);
      assert s == p + [s[|s| - 1]];
    }
  }

  /** Appending an element extends `Dedup` by it exactly when it is new. */
  lemma DedupAppend<T>(s: seq<T>, x: T)
    ensures x !in s ==> Dedup(s + [x]) == Dedup(s) + [x]
    ensures x in s ==> Dedup(s + [x]) == Dedup(s)
  {
    assert (s + [x])[..|s|] == s;
    DedupSameElements(s);
  }

  /** `Dedup` never repeats an element. */
  lemma {:induction false} DedupDistinct<T>(s: seq<T>)
    ensures AllDistinct(Dedup(s))
  {
    if |s| > 0 {
      DedupDistinct(s[..|s| - 1]);
    }
  }

  /** Appending an element leaves the first occurrences of the old
      elements where they were. */
  lemma FirstIndexAppend<T>(s: seq<T>, x: T, y: T)
    requires y in s
    ensures FirstIndex(s + [x], y) == FirstIndex(s, y)
  {
    var b := FirstIndex(s, y);
    assert (s + [x])[b] == y;
  }

  /** `Dedup` lists the elements in the order of their first occurrence. */
  lemma {:induction false} DedupFirstSeenOrder<T>(s: seq<T>)
    ensures forall i, j :: 0 <= i < j < |Dedup(s)| ==>
      Dedup(s)[i] in s && Dedup(s)[j] in s &&
      FirstIndex(s, Dedup(s)[i]) < FirstIndex(s, Dedup(s)[j])
  {
    if |s| > 0 {
      var p, x := s[..|s| - 1], s[|s| - 1];
      assert s == p + [x];
      var d := Dedup(p);
      DedupFirstSeenOrder(p);
      forall y | y in d
        ensures y in p && FirstIndex(s, y) == FirstIndex(p, y)
      {
        DedupMember(p, y);
        FirstIndexAppend(p, x, y);
      }
      if x in d {
        assert Dedup(s) == d;
        forall i, j | 0 <= i < j < |d|
          ensures d[i] in s && d[j] in s && FirstIndex(s, d[i]) < FirstIndex(s, d[j])
        {
          assert d[i] in d && d[j] in d;
        }
      } else {
        var e := d + [x];
        assert Dedup(s) == e;
        DedupSameElements(p);
        assert x !in p;
        assert FirstIndex(s, x) == |p|;
        forall i, j | 0 <= i < j < |e|
          ensures e[i] in s && e[j] in s && FirstIndex(s, e[i]) < FirstIndex(s, e[j])
        {
          assert e[i] == d[i] && d[i] in d;
          if j < |d| {
            assert e[j] == d[j] && d[j] in d;
          } else {
            assert e[j] == x;
          }
        }
      }
    } else {
      assert Dedup(s) == [];
    }
  }

  lemma DedupMember<T>(s: seq<T>, y: T)
    requires y in Dedup(s)
    ensures y in s
  {
    DedupSameElements(s);
  }
}

/** The array operations the editors use on their lists, as functions on sequences. */
module Lists {

  /** `s.filter((_, i) => i !== index)`: drops the element at `index` when
      there is one and keeps everything else in order; an index outside the
      list changes nothing. */
  function WithoutIndex<T>(s: seq<T>, index: int): (r: seq<T>)
    ensures 0 <= index < |s| ==> |r| == |s| - 1
    ensures !(0 <= index < |s|) ==> r == s
    ensures forall j :: 0 <= j < |r| && j < index ==> r[j] == s[j]
    ensures forall j :: 0 <= j < |r| && 0 <= index <= j ==> r[j] == s[j + 1]
    ensures 0 <= index < |s| ==> multiset(r) + multiset{s[index]} == multiset(s)
  {
    if s == [] then []
    else
      var rest := WithoutIndex(s[1..], index - 1);
      assert s == [s[0]] + s[1..];
      if index == 0 then rest else [s[0]] + rest
  }

  /** Where `splice(start, 1)` starts: a negative start counts from the end. */
  function SpliceStart(len: nat, start: int): (k: nat)
    ensures k <= len
    ensures 0 <= start ==> k == if start < len then start else len
    ensures start < 0 && -start <= len ==> k == len + start
  {
    if start < 0 then (if len + start < 0 then 0 else len + start)
    else if start < len then start else len
  }

  /** `s.splice(start, 1)` seen through its effect on `s`: it removes the
      element at the normalised start, if any, exactly as filtering that index out. */
  function SpliceOne<T>(s: seq<T>, start: int): (r: seq<T>)
    ensures r == WithoutIndex(s, SpliceStart(|s|, start))
  {
    var k := SpliceStart(|s|, start);
    var r := if k < |s| then s[..k] + s[k + 1..] else s;
    var w := WithoutIndex(s, k);
    assert |r| == |w|;
    assert forall j :: 0 <= j < |r| ==> r[j] == w[j];
    r
  }

  /** `s.map(f)`. */
  function Map<A, B>(f: A -> B, s: seq<A>): (r: seq<B>)
    ensures |r| == |s|
    ensures forall i :: 0 <= i < |s| ==> r[i] == f(s[i])
  {
    if s == [] then [] else [f(s[0])] + Map(f, s[1..])
  }

  /** `[a[i], a[j]] = [a[j], a[i]]` on a copy: the two elements trade places,
      nothing else moves, and the list is a permutation of the input. */
  function Swap<T>(s: seq<T>, i: nat, j: nat): (r: seq<T>)
    requires i < |s| && j < |s|
    ensures |r| == |s| && r[i] == s[j] && r[j] == s[i]
    ensures forall k :: 0 <= k < |s| && k != i && k != j ==> r[k] == s[k]
    ensures multiset(r) == multiset(s)
  {
    s[i := s[j]][j := s[i]]
  }

  /** No element occurs twice. */
  predicate Distinct<T(==)>(s: seq<T>) {
    forall i, j :: 0 <= i < j < |s| ==> s[i] != s[j]
  }

  /** An element not in a sequence without repeats can be put in front of it. */
  lemma DistinctCons<T>(x: T, s: seq<T>)
    requires Distinct(s) && x !in s
    ensures Distinct([x] + s)
  {
    var r := [x] + s;
    forall i, j | 0 <= i < j < |r| ensures r[i] != r[j] {
      assert r[j] == s[j - 1];
    }
  }

  function Elems<T>(s: seq<T>): set<T> {
    set x | x in s
  }

  /** A sequence has no repeats exactly when it has as many elements as its set. */
  lemma {:induction false} DistinctCard<T>(s: seq<T>)
    ensures |Elems(s)| <= |s|
    ensures Distinct(s) <==> |Elems(s)| == |s|
  {
    if s != [] {
      var t := s[1..];
      DistinctCard(t);
      assert Elems(s) == {s[0]} + Elems(t);
      if s[0] in t {
        assert Elems(s) == Elems(t);
        var j :| 0 <= j < |t| && t[j] == s[0];
        assert s[0] == s[j + 1];
      } else {
        assert Distinct(s) <==> Distinct(t);
      }
    }
  }

  /** Two sequences with the same elements counted with multiplicity agree on having no repeats. */
  lemma DistinctPermutation<T>(a: seq<T>, b: seq<T>)
    requires multiset(a) == multiset(b) && Distinct(b)
    ensures Distinct(a)
  {
    assert Elems(a) == Elems(b) by {
      forall x ensures x in Elems(a) <==> x in Elems(b) {
        assert x in a <==> x in multiset(a);
        assert x in b <==> x in multiset(b);
      }
    }
    assert |a| == |multiset(a)| == |multiset(b)| == |b|;
    DistinctCard(a);
    DistinctCard(b);
  }
}

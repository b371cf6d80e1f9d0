/** List operations that `Todo.reorder` performs on its entry list. */
module Lists {

  /** No element occurs at two positions. */
  predicate Distinct<T(==)>(s: seq<T>)
  {
    forall i, j :: 0 <= i < |s| && 0 <= j < |s| && i != j ==> s[i] != s[j]
  }

  /** `item = s.pop(from); s.insert(to, item)`: the element at `from` is
      taken out and put back in front of what is then at `to`. */
  function Splice<T>(s: seq<T>, from: nat, to: nat): (r: seq<T>)
    requires from < |s| && to < |s|
    ensures |r| == |s| && r[to] == s[from]
  {
    var rest := s[..from] + s[from + 1..];
    rest[..to] + [s[from]] + rest[to..]
  }

  /** The position of `s` that position `k` of `Splice(s, from, to)` holds:
      the moved element at `to`, and the elements between the two positions
      shifted by one towards `from`. */
  function SpliceSource(from: nat, to: nat, k: nat): nat
  {
    if k == to then from
    else if from <= to && from <= k < to then k + 1
    else if to < from && to < k <= from then k - 1
    else k
  }

  lemma SpliceAt<T>(s: seq<T>, from: nat, to: nat, k: nat)
    requires from < |s| && to < |s| && k < |s|
    ensures SpliceSource(from, to, k) < |s|
    ensures Splice(s, from, to)[k] == s[SpliceSource(from, to, k)]
  {
    var rest := s[..from] + s[from + 1..];
    assert forall j :: 0 <= j < |rest| ==> rest[j] == s[if j < from then j else j + 1];
    var r := Splice(s, from, to);
    assert r == rest[..to] + [s[from]] + rest[to..];
    if k < to {
      assert r[k] == rest[k];
    } else if k > to {
      assert r[k] == rest[k - 1];
    }
  }

  /** Distinct positions of the result come from distinct positions of `s`. */
  lemma SpliceSourceInjective(from: nat, to: nat, j: nat, k: nat)
    requires j != k
    ensures SpliceSource(from, to, j) != SpliceSource(from, to, k)
  {
  }

  /** Reordering is a permutation: the same elements, as often. */
  lemma {:induction false} SplicePermutes<T>(s: seq<T>, from: nat, to: nat)
    requires from < |s| && to < |s|
    ensures multiset(Splice(s, from, to)) == multiset(s)
  {
    var rest := s[..from] + s[from + 1..];
    assert s == s[..from] + [s[from]] + s[from + 1..];
    assert rest == rest[..to] + rest[to..];
    calc {
      multiset(Splice(s, from, to));
      multiset(rest[..to]) + multiset{s[from]} + multiset(rest[to..]);
      multiset(rest) + multiset{s[from]};
      multiset(s[..from]) + multiset(s[from + 1..]) + multiset{s[from]};
      multiset(s);
    }
  }

  /** Reordering keeps a list free of repeated elements. */
  lemma SpliceDistinct<T>(s: seq<T>, from: nat, to: nat)
    requires from < |s| && to < |s| && Distinct(s)
    ensures Distinct(Splice(s, from, to))
  {
    var r := Splice(s, from, to);
    forall i, j | 0 <= i < |r| && 0 <= j < |r| && i != j
      ensures r[i] != r[j]
    {
      SpliceAt(s, from, to, i);
      SpliceAt(s, from, to, j);
      SpliceSourceInjective(from, to, i, j);
    }
  }

  /** Moving an element onto its own position changes nothing. */
  lemma SpliceIdentity<T>(s: seq<T>, i: nat)
    requires i < |s|
    ensures Splice(s, i, i) == s
  {
    forall k | 0 <= k < |s| ensures Splice(s, i, i)[k] == s[k] {
      SpliceAt(s, i, i, k);
    }
  }

  /** Moving the first of three to the end shifts the other two forward;
      moving the new first one place back then reverses the original. */
  lemma SpliceOfThree<T>(a: T, b: T, c: T)
    ensures Splice([a, b, c], 0, 2) == [b, c, a]
    ensures Splice([b, c, a], 0, 1) == [c, b, a]
  {
    assert [a, b, c][1..] == [b, c];
    assert [b, c, a][1..] == [c, a];
  }
}

/**
  First-occurrence interning, the numbering scheme behind both de-duplication
  tables of the OBJ loader: the `(v, n)` index-pair cache that hands out vertex
  ids, and the value tables that collect unique positions and normals.

  `Distinct(s)` lists the distinct elements of `s` in order of first appearance,
  and `IndexOf(d, x)` is the id an element receives.
*/
module Interning {

  /** No element of `s` occurs twice. */
  predicate NoDuplicates<T(==)>(s: seq<T>) {
    forall i, j :: 0 <= i < j < |s| ==> s[i] != s[j]
  }

  /** The distinct elements of `s`, each kept at its first occurrence. */
  function Distinct<T(==, !new)>(s: seq<T>): (d: seq<T>)
    ensures forall x :: x in d <==> x in s
    ensures |d| <= |s|
  {
    if s == [] then []
    else
      var init := s[..|s| - 1];
      assert s == init + [s[|s| - 1]];
      var d := Distinct(init);
      if s[|s| - 1] in d then d else d + [s[|s| - 1]]
  }

  /** The position of the first occurrence of `x` in `s`. */
  function IndexOf<T(==)>(s: seq<T>, x: T): (i: nat)
    requires x in s
    ensures i < |s| && s[i] == x
  {
    if s[0] == x then 0 else 1 + IndexOf(s[1..], x)
  }

  /** `IndexOf` finds the first occurrence. */
  lemma {:induction false} IndexOfIsFirst<T>(s: seq<T>, x: T)
    requires x in s
    ensures forall j :: 0 <= j < IndexOf(s, x) ==> s[j] != x
  {
    if s[0] != x {
      IndexOfIsFirst(s[1..], x);
    }
  }

  /** The table holds every element once. */
  lemma {:induction false} DistinctHasNoDuplicates<T(!new)>(s: seq<T>)
    ensures NoDuplicates(Distinct(s))
  {
    if s != [] {
      var init := s[..|s| - 1];
      assert s == init + [s[|s| - 1]];
      DistinctHasNoDuplicates(init);
    }
  }

  /** The id map of a table: each element to its slot. */
  function Ids<T(!new)>(d: seq<T>): (m: map<T, nat>)
    ensures forall x :: x in m <==> x in d
    ensures forall x :: x in m ==> m[x] < |d| && d[m[x]] == x
  {
    map x | x in d :: IndexOf(d, x)
  }

  /** A new element appended to a table is cached with the next id. */
  lemma IdsSnoc<T(!new)>(d: seq<T>, x: T)
    requires x !in d
    ensures Ids(d + [x]) == Ids(d)[x := |d|]
  {
    var d' := d + [x];
    forall y | y in d
      ensures IndexOf(d', y) == IndexOf(d, y)
    {
      IndexOfPrefix(d, d', y);
    }
    assert d'[|d|] == x;
    assert IndexOf(d', x) == |d|;
  }

  /** Appending one element either leaves the table alone (a repeat) or adds
      that element at the end (a first occurrence). */
  lemma {:induction false} DistinctSnoc<T(!new)>(s: seq<T>, x: T)
    ensures Distinct(s + [x]) == if x in s then Distinct(s) else Distinct(s) + [x]
  {
    assert (s + [x])[..|s + [x]| - 1] == s;
  }

  /** The table built from a prefix is a prefix of the table built from the whole. */
  lemma {:induction false} DistinctPrefix<T(!new)>(s: seq<T>, k: nat)
    requires k <= |s|
    ensures Distinct(s[..k]) <= Distinct(s)
    decreases |s| - k
  {
    if k < |s| {
      DistinctPrefix(s, k + 1);
      assert s[..k + 1] == s[..k] + [s[k]];
      DistinctSnoc(s[..k], s[k]);
    } else {
      assert s[..k] == s;
    }
  }

  /** The id of an element does not change when the table grows behind it. */
  lemma IndexOfPrefix<T(!new)>(p: seq<T>, s: seq<T>, x: T)
    requires p <= s && x in p
    ensures IndexOf(s, x) == IndexOf(p, x)
  {
    var i := IndexOf(p, x);
    assert s[i] == x;
    IndexOfIsFirst(s, x);
    var j := IndexOf(s, x);
    assert j <= i;
    assert p[j] == s[j];
  }

  /** In a table without repeats, the element at slot `i` has id `i`. */
  lemma IndexOfDistinctSlot<T(!new)>(s: seq<T>, i: nat)
    requires NoDuplicates(s) && i < |s|
    ensures IndexOf(s, s[i]) == i
  {
    IndexOfIsFirst(s, s[i]);
  }

  /** First-occurrence numbering: an element seen for the first time at
      position `k` receives the number of distinct elements seen before it. */
  lemma FirstOccurrenceId<T(!new)>(s: seq<T>, k: nat)
    requires k < |s| && s[k] !in s[..k]
    ensures IndexOf(Distinct(s), s[k]) == |Distinct(s[..k])|
  {
    assert s[..k + 1] == s[..k] + [s[k]];
    DistinctSnoc(s[..k], s[k]);
    DistinctPrefix(s, k + 1);
    var d := Distinct(s);
    var dk := Distinct(s[..k]);
    DistinctHasNoDuplicates(s);
    assert d[|dk|] == s[k];
    IndexOfDistinctSlot(d, |dk|);
  }

  /** A repeat reuses the id of the element's first occurrence, and distinct
      elements never share an id. */
  lemma IdsMatchOccurrences<T(!new)>(s: seq<T>, j: nat, k: nat)
    requires j < |s| && k < |s|
    ensures IndexOf(Distinct(s), s[j]) == IndexOf(Distinct(s), s[k]) <==> s[j] == s[k]
  {
  }

  /** A first occurrence makes the table one longer. */
  lemma DistinctGrows<T(!new)>(s: seq<T>, j: nat)
    requires j < |s| && s[j] !in s[..j]
    ensures |Distinct(s[..j + 1])| == |Distinct(s[..j])| + 1
  {
    assert s[..j + 1] == s[..j] + [s[j]];
    DistinctSnoc(s[..j], s[j]);
  }

  /** Every first occurrence after position `j` finds a longer table than `j` did. */
  lemma DistinctLonger<T(!new)>(s: seq<T>, j: nat, k: nat)
    requires j < k <= |s| && s[j] !in s[..j]
    ensures |Distinct(s[..j])| < |Distinct(s[..k])|
  {
    DistinctGrows(s, j);
    var sk := s[..k];
    assert sk[..j + 1] == s[..j + 1];
    DistinctPrefix(sk, j + 1);
  }

  /** Ids are handed out in increasing order of first appearance. */
  lemma FirstOccurrencesIncrease<T(!new)>(s: seq<T>, j: nat, k: nat)
    requires j < k < |s|
    requires s[j] !in s[..j] && s[k] !in s[..k]
    ensures IndexOf(Distinct(s), s[j]) < IndexOf(Distinct(s), s[k])
  {
    FirstOccurrenceId(s, j);
    FirstOccurrenceId(s, k);
    DistinctLonger(s, j, k);
  }
}

/** `[...xs].sort(cmp)`: JavaScript's sort is stable, so for a consistent
    comparator its result is fixed: an element goes before a later one
    unless the comparator puts the later one strictly first. The model
    sorts by insertion, keeping equal elements in their input order. */
module ArraySort {

  /** Puts x in front of the first element of t that it may precede. */
  function Insert<T>(x: T, t: seq<T>, cmp: (T, T) -> int): (r: seq<T>)
    ensures multiset(r) == multiset(t) + multiset{x}
    ensures forall k :: 0 <= k < |r| ==> r[k] == x || r[k] in t
  {
    if t == [] || cmp(x, t[0]) <= 0 then [x] + t
    else
      assert t == [t[0]] + t[1..];
      [t[0]] + Insert(x, t[1..], cmp)
  }

  /** The sorted copy; the input sequence itself is a value and stays as it was. */
  function SortWith<T>(s: seq<T>, cmp: (T, T) -> int): (r: seq<T>)
    ensures multiset(r) == multiset(s)
  {
    if s == [] then []
    else
      assert s == [s[0]] + s[1..];
      Insert(s[0], SortWith(s[1..], cmp), cmp)
  }

  /** Every element may precede every later one. */
  ghost predicate SortedBy<T>(s: seq<T>, cmp: (T, T) -> int)
  {
    forall i, j :: 0 <= i < j < |s| ==> cmp(s[i], s[j]) <= 0
  }

  /** What the sort asks of a comparator: any two elements can be placed one
      way round, and "may precede" is transitive. */
  ghost predicate Consistent<T(!new)>(cmp: (T, T) -> int)
  {
    && (forall a, b :: cmp(a, b) <= 0 || cmp(b, a) <= 0)
    && (forall a, b, c :: cmp(a, b) <= 0 && cmp(b, c) <= 0 ==> cmp(a, c) <= 0)
  }

  lemma {:induction false} InsertSorted<T(!new)>(x: T, t: seq<T>, cmp: (T, T) -> int)
    requires Consistent(cmp) && SortedBy(t, cmp)
    ensures SortedBy(Insert(x, t, cmp), cmp)
  {
    if t == [] {
    } else if cmp(x, t[0]) <= 0 {
      InsertInFront(x, t, cmp);
    } else {
      InsertSorted(x, t[1..], cmp);
      InsertBehind(x, t, cmp);
    }
  }

  lemma InsertInFront<T(!new)>(x: T, t: seq<T>, cmp: (T, T) -> int)
    requires Consistent(cmp) && SortedBy(t, cmp)
    requires t != [] && cmp(x, t[0]) <= 0
    ensures SortedBy([x] + t, cmp)
  {
    forall j | 0 <= j < |t| ensures cmp(x, t[j]) <= 0 {
      if j > 0 {
        assert cmp(t[0], t[j]) <= 0;
      }
    }
  }

  lemma InsertBehind<T(!new)>(x: T, t: seq<T>, cmp: (T, T) -> int)
    requires Consistent(cmp) && SortedBy(t, cmp)
    requires t != [] && cmp(x, t[0]) > 0
    requires SortedBy(Insert(x, t[1..], cmp), cmp)
    ensures SortedBy(Insert(x, t, cmp), cmp)
  {
    var rest := Insert(x, t[1..], cmp);
    assert cmp(t[0], x) <= 0;
    forall k | 0 <= k < |rest| ensures cmp(t[0], rest[k]) <= 0 {
      if rest[k] != x {
        var m :| 0 <= m < |t[1..]| && t[1..][m] == rest[k];
        assert t[m + 1] == rest[k];
      }
    }
    assert Insert(x, t, cmp) == [t[0]] + rest;
  }

  /** The result is ordered by the comparator. */
  lemma {:induction false} SortWithSorted<T(!new)>(s: seq<T>, cmp: (T, T) -> int)
    requires Consistent(cmp)
    ensures SortedBy(SortWith(s, cmp), cmp)
  {
    if s != [] {
      SortWithSorted(s[1..], cmp);
      InsertSorted(s[0], SortWith(s[1..], cmp), cmp);
    }
  }

  /** An input that is already in order comes back unchanged. */
  lemma {:induction false} SortWithOrderedInput<T>(s: seq<T>, cmp: (T, T) -> int)
    requires SortedBy(s, cmp)
    ensures SortWith(s, cmp) == s
  {
    if s != [] {
      SortWithOrderedInput(s[1..], cmp);
      assert [s[0]] + s[1..] == s;
    }
  }
}

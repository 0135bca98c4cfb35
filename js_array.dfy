/** The `Array.prototype` methods the pages and services rely on: `filter`, `find`,
    `slice`, `sort` with a numeric comparator (stable, as the language requires), and
    `some`. */
module JsArray {
  import opened JsText

  // ---------------------------------------------------------------------------
  // filter

  function Filter<T>(s: seq<T>, p: T -> bool): (r: seq<T>)
    ensures |r| <= |s|
    decreases |s|
  {
    if |s| == 0 then []
    else if p(s[0]) then [s[0]] + Filter(s[1..], p)
    else Filter(s[1..], p)
  }

  /** `r` is `s` with some elements left out and the rest kept in their order. */
  ghost predicate IsSubsequence<T>(r: seq<T>, s: seq<T>)
    decreases |s|
  {
    if |r| == 0 then true
    else if |s| == 0 then false
    else if r[0] == s[0] then IsSubsequence(r[1..], s[1..])
    else IsSubsequence(r, s[1..])
  }

  /** `filter` keeps exactly the elements that pass, in their original order. */
  lemma {:induction false} FilterSpec<T>(s: seq<T>, p: T -> bool)
    ensures IsSubsequence(Filter(s, p), s)
    ensures forall x :: x in Filter(s, p) <==> x in s && p(x)
    decreases |s|
  {
    if |s| > 0 {
      FilterSpec(s[1..], p);
      if p(s[0]) {
        assert ([s[0]] + Filter(s[1..], p))[1..] == Filter(s[1..], p);
      }
      assert s == [s[0]] + s[1..];
    }
  }

  /** `filter` keeps each passing element as often as it occurs, and no other. */
  lemma {:induction false} FilterCounts<T>(s: seq<T>, p: T -> bool)
    ensures forall x :: multiset(Filter(s, p))[x] == if p(x) then multiset(s)[x] else 0
    decreases |s|
  {
    if |s| > 0 {
      FilterCounts(s[1..], p);
      assert s == [s[0]] + s[1..];
    }
  }

  /** When every element passes, `filter` returns its input. */
  lemma {:induction false} FilterKeepsAll<T>(s: seq<T>, p: T -> bool)
    requires forall i :: 0 <= i < |s| ==> p(s[i])
    ensures Filter(s, p) == s
    decreases |s|
  {
    if |s| > 0 {
      FilterKeepsAll(s[1..], p);
      assert [s[0]] + s[1..] == s;
    }
  }

  /** `s.filter(p).length`. */
  function Count<T>(s: seq<T>, p: T -> bool): nat
  {
    |Filter(s, p)|
  }

  lemma {:induction false} FilterAppend<T>(a: seq<T>, b: seq<T>, p: T -> bool)
    ensures Filter(a + b, p) == Filter(a, p) + Filter(b, p)
    decreases |a|
  {
    if |a| == 0 {
      assert a + b == b;
    } else {
      var ab := a + b;
      assert ab[0] == a[0];
      assert ab[1..] == a[1..] + b;
      FilterAppend(a[1..], b, p);
      if p(a[0]) {
        assert Filter(ab, p) == [a[0]] + Filter(ab[1..], p);
        assert Filter(a, p) == [a[0]] + Filter(a[1..], p);
      } else {
        assert Filter(ab, p) == Filter(ab[1..], p);
        assert Filter(a, p) == Filter(a[1..], p);
      }
    }
  }

  /** Two disjoint conditions count no more than the whole list between them. */
  lemma {:induction false} CountDisjoint<T>(s: seq<T>, p: T -> bool, q: T -> bool)
    requires forall i :: 0 <= i < |s| ==> !(p(s[i]) && q(s[i]))
    ensures Count(s, p) + Count(s, q) <= |s|
    decreases |s|
  {
    if |s| > 0 {
      CountDisjoint(s[1..], p, q);
    }
  }

  /** A stricter condition counts no more than a weaker one. */
  lemma {:induction false} CountMonotone<T>(s: seq<T>, p: T -> bool, q: T -> bool)
    requires forall i :: 0 <= i < |s| ==> p(s[i]) ==> q(s[i])
    ensures Count(s, p) <= Count(s, q)
    decreases |s|
  {
    if |s| > 0 {
      CountMonotone(s[1..], p, q);
    }
  }

  /** Two disjoint conditions that each imply a third count no more than the third. */
  lemma {:induction false} CountDisjointWithin<T>(s: seq<T>, p: T -> bool, q: T -> bool, r: T -> bool)
    requires forall i :: 0 <= i < |s| ==> !(p(s[i]) && q(s[i]))
    requires forall i :: 0 <= i < |s| ==> (p(s[i]) || q(s[i])) ==> r(s[i])
    ensures Count(s, p) + Count(s, q) <= Count(s, r)
    decreases |s|
  {
    if |s| > 0 {
      CountDisjointWithin(s[1..], p, q, r);
    }
  }

  /** Appending one element adds one to the count exactly when it passes. */
  lemma CountSnoc<T>(s: seq<T>, x: T, p: T -> bool)
    ensures Count(s + [x], p) == Count(s, p) + (if p(x) then 1 else 0)
  {
    FilterAppend(s, [x], p);
    assert [x][1..] == [];
  }

  /** No element passes a condition that counts zero. */
  lemma CountZero<T>(s: seq<T>, p: T -> bool)
    requires Count(s, p) == 0
    ensures forall i :: 0 <= i < |s| ==> !p(s[i])
  {
    FilterSpec(s, p);
    forall i | 0 <= i < |s| ensures !p(s[i]) {
      assert s[i] in s;
    }
  }

  // ---------------------------------------------------------------------------
  // find and some

  /** The index of the first element that passes, or `|s|` when none does. */
  function FirstIndex<T>(s: seq<T>, p: T -> bool): (i: nat)
    ensures i <= |s|
    ensures forall j :: 0 <= j < i ==> !p(s[j])
    ensures i < |s| ==> p(s[i])
    decreases |s|
  {
    if |s| == 0 then 0 else if p(s[0]) then 0 else 1 + FirstIndex(s[1..], p)
  }

  /** Appending one element does not move the first passing element, and becomes it when
      there was none before. */
  lemma FirstIndexSnoc<T>(s: seq<T>, x: T, p: T -> bool)
    ensures FirstIndex(s, p) < |s| ==> FirstIndex(s + [x], p) == FirstIndex(s, p)
    ensures FirstIndex(s, p) == |s| && p(x) ==> FirstIndex(s + [x], p) == |s|
  {
    var t := s + [x];
    assert forall j :: 0 <= j < |s| ==> t[j] == s[j];
    assert t[|s|] == x;
  }

  /** Some element passes exactly when the first passing index lies inside the list. */
  lemma CountPositive<T>(s: seq<T>, p: T -> bool)
    ensures Count(s, p) > 0 <==> FirstIndex(s, p) < |s|
  {
    FilterSpec(s, p);
    var f := FirstIndex(s, p);
    if f < |s| {
      assert s[f] in Filter(s, p);
    } else {
      NoneMatch(s, p);
    }
  }

  /** `s.find(p)`: the first element that passes, `undefined` when none does. */
  function Find<T>(s: seq<T>, p: T -> bool): (r: Option<T>)
    ensures r.Some? ==> FirstIndex(s, p) < |s| && r.value == s[FirstIndex(s, p)] && p(r.value)
    ensures r.None? <==> forall i :: 0 <= i < |s| ==> !p(s[i])
  {
    var i := FirstIndex(s, p);
    if i < |s| then Some(s[i]) else None
  }

  /** Finding by equality yields the value itself exactly when it occurs. */
  lemma FindEqual<T>(s: seq<T>, v: T)
    ensures Find(s, (x: T) => x == v) == if v in s then Some(v) else None
  {
    if v in s {
      var i :| 0 <= i < |s| && s[i] == v;
      assert !Find(s, (x: T) => x == v).None?;
    }
  }

  /** `s.some(p)`. */
  predicate AnyMatch<T>(s: seq<T>, p: T -> bool) {
    exists i | 0 <= i < |s| :: p(s[i])
  }

  // ---------------------------------------------------------------------------
  // slice

  /** The index `slice` uses for an argument: a negative one counts from the end, and
      either kind is clamped to the list. */
  function SliceIndex(len: nat, k: int): (r: nat)
    ensures r <= len
    ensures 0 <= k <= len ==> r == k
  {
    if k < 0 then (if len + k < 0 then 0 else len + k) else if k > len then len else k
  }

  /** `s.slice(start, end)`. */
  function Slice<T>(s: seq<T>, start: int, end: int): (r: seq<T>)
    ensures var a, b := SliceIndex(|s|, start), SliceIndex(|s|, end);
            if a < b then r == s[a..b] else r == []
  {
    var a, b := SliceIndex(|s|, start), SliceIndex(|s|, end);
    if a < b then s[a..b] else []
  }

  /** `s.slice(0, n)` for a non-negative `n`: at most `n` elements, the first ones. */
  lemma SliceFront<T>(s: seq<T>, n: nat)
    ensures |Slice(s, 0, n)| == if n < |s| then n else |s|
    ensures Slice(s, 0, n) == s[..|Slice(s, 0, n)|]
  {
  }

  // ---------------------------------------------------------------------------
  // sort with the comparator `(a, b) => key(b) - key(a)`

  ghost predicate SortedDesc<T>(s: seq<T>, key: T -> int) {
    forall i, j :: 0 <= i < j < |s| ==> key(s[i]) >= key(s[j])
  }

  /** Where `x` goes among elements already in order: before the first whose key is not larger. */
  function InsertPos<T>(x: T, t: seq<T>, key: T -> int): (i: nat)
    ensures i <= |t|
    ensures forall j :: 0 <= j < i ==> key(t[j]) > key(x)
    ensures i < |t| ==> key(t[i]) <= key(x)
    decreases |t|
  {
    if |t| == 0 || key(t[0]) <= key(x) then 0 else 1 + InsertPos(x, t[1..], key)
  }

  function InsertDesc<T>(x: T, t: seq<T>, key: T -> int): (r: seq<T>)
    ensures |r| == |t| + 1
  {
    var i := InsertPos(x, t, key);
    t[..i] + [x] + t[i..]
  }

  /** The insertion point is the first element whose key is not above the inserted one. */
  lemma InsertAt<T>(x: T, t: seq<T>, key: T -> int, i: nat)
    requires i <= |t| && (forall j :: 0 <= j < i ==> key(t[j]) > key(x))
    requires i < |t| ==> key(t[i]) <= key(x)
    ensures InsertDesc(x, t, key) == t[..i] + [x] + t[i..]
  {
  }

  /** `s.sort((a, b) => key(b) - key(a))` on a copy: largest key first, and elements with equal
      keys in their original order, since the sort is stable. A stable sort has only one
      possible result, so insertion sort gives exactly that result. */
  function SortDesc<T>(s: seq<T>, key: T -> int): (r: seq<T>)
    ensures |r| == |s|
    decreases |s|
  {
    if |s| == 0 then [] else InsertDesc(s[0], SortDesc(s[1..], key), key)
  }

  lemma InsertDescSorted<T>(x: T, t: seq<T>, key: T -> int)
    requires SortedDesc(t, key)
    ensures SortedDesc(InsertDesc(x, t, key), key)
    ensures multiset(InsertDesc(x, t, key)) == multiset(t) + multiset{x}
  {
    var i := InsertPos(x, t, key);
    var r := InsertDesc(x, t, key);
    InsertDescAt(x, t, key);
    forall a, b | 0 <= a < b < |r|
      ensures key(r[a]) >= key(r[b])
    {
      if b < i {
        assert key(t[a]) >= key(t[b]);
      } else if b == i {
        assert key(t[a]) > key(x);
      } else if a < i {
        assert key(t[a]) >= key(t[b - 1]);
      } else if a == i {
        assert key(t[i]) >= key(t[b - 1]);
      } else {
        assert key(t[a - 1]) >= key(t[b - 1]);
      }
    }
    InsertDescMultiset(x, t, key);
  }

  lemma InsertDescMultiset<T>(x: T, t: seq<T>, key: T -> int)
    ensures multiset(InsertDesc(x, t, key)) == multiset(t) + multiset{x}
  {
    var i := InsertPos(x, t, key);
    calc {
      multiset(InsertDesc(x, t, key));
      multiset(t[..i] + [x] + t[i..]);
      multiset(t[..i]) + multiset{x} + multiset(t[i..]);
      { assert t == t[..i] + t[i..]; }
      multiset(t) + multiset{x};
    }
  }

  /** Where each element of `t` lands once `x` is inserted. */
  lemma InsertDescAt<T>(x: T, t: seq<T>, key: T -> int)
    ensures var i, r := InsertPos(x, t, key), InsertDesc(x, t, key);
            r[i] == x
            && (forall k :: 0 <= k < i ==> r[k] == t[k])
            && (forall k :: i < k < |r| ==> r[k] == t[k - 1])
  {
  }

  /** The sorted copy is in non-increasing key order and holds the same elements. */
  lemma {:induction false} SortDescSpec<T>(s: seq<T>, key: T -> int)
    ensures SortedDesc(SortDesc(s, key), key)
    ensures multiset(SortDesc(s, key)) == multiset(s)
    decreases |s|
  {
    if |s| > 0 {
      SortDescSpec(s[1..], key);
      InsertDescSorted(s[0], SortDesc(s[1..], key), key);
      assert s == [s[0]] + s[1..];
    }
  }

  /** The test `x => key(x) == k`. */
  function KeyEquals<T>(key: T -> int, k: int): T -> bool {
    x => key(x) == k
  }

  /** Elements that share a key keep the order they had: the elements of any one key come
      out exactly as they went in. */
  lemma {:induction false} SortDescStable<T>(s: seq<T>, key: T -> int, k: int)
    ensures Filter(SortDesc(s, key), KeyEquals(key, k)) == Filter(s, KeyEquals(key, k))
    decreases |s|
  {
    var p := KeyEquals(key, k);
    if |s| > 0 {
      SortDescStable(s[1..], key, k);
      InsertDescStable(s[0], SortDesc(s[1..], key), key, k);
      assert s == [s[0]] + s[1..];
      FilterAppend([s[0]], s[1..], p);
    }
  }

  lemma InsertDescStable<T>(x: T, t: seq<T>, key: T -> int, k: int)
    ensures Filter(InsertDesc(x, t, key), KeyEquals(key, k)) == Filter([x], KeyEquals(key, k)) + Filter(t, KeyEquals(key, k))
  {
    var p := KeyEquals(key, k);
    var i := InsertPos(x, t, key);
    InsertDescFilter(x, t, key, p);
    if key(x) == k {
      PassedOverSkipped(x, t, key, k);
      assert Filter(t[..i], p) == [];
    } else {
      assert Filter([x], p) == [];
    }
  }

  /** `filter` of an insertion, as the parts before, at and after the insertion point. */
  lemma InsertDescFilter<T>(x: T, t: seq<T>, key: T -> int, p: T -> bool)
    ensures var i := InsertPos(x, t, key);
            Filter(InsertDesc(x, t, key), p) == Filter(t[..i], p) + Filter([x], p) + Filter(t[i..], p)
            && Filter(t, p) == Filter(t[..i], p) + Filter(t[i..], p)
  {
    var i := InsertPos(x, t, key);
    FilterAround(t[..i], x, t[i..], p);
    assert t == t[..i] + t[i..];
    FilterAppend(t[..i], t[i..], p);
  }

  /** The elements an insertion passes over all have larger keys, so none has the key of `x`. */
  lemma PassedOverSkipped<T>(x: T, t: seq<T>, key: T -> int, k: int)
    requires key(x) == k
    ensures Filter(t[..InsertPos(x, t, key)], KeyEquals(key, k)) == []
  {
    var p := KeyEquals(key, k);
    var i := InsertPos(x, t, key);
    forall j | 0 <= j < i
      ensures !p(t[..i][j])
    {
      assert key(t[j]) > key(x);
    }
    NoneMatch(t[..i], p);
  }

  /** `filter` of a list split around one element. */
  lemma FilterAround<T>(front: seq<T>, x: T, back: seq<T>, p: T -> bool)
    ensures Filter(front + [x] + back, p) == Filter(front, p) + Filter([x], p) + Filter(back, p)
  {
    FilterAppend(front + [x], back, p);
    FilterAppend(front, [x], p);
  }

  lemma {:induction false} NoneMatch<T>(s: seq<T>, p: T -> bool)
    requires forall i :: 0 <= i < |s| ==> !p(s[i])
    ensures Filter(s, p) == []
    decreases |s|
  {
    if |s| > 0 {
      NoneMatch(s[1..], p);
    }
  }
}

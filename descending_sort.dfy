/** Sorting by an integer key, largest key first, stably: the order both
    the browser and the Read API give a products array with
    `sort((a, b) => key(b) - key(a))` (Array.prototype.sort is stable).
    `SortDesc` is the specification, an insertion sort on sequences;
    `InsertionSortDesc` sorts an array in place and is proved to compute it. */
module DescendingSort {

  /** Non-increasing by key. */
  ghost predicate SortedDesc<T>(s: seq<T>, key: T -> int) {
    forall i, j :: 0 <= i < j < |s| ==> key(s[i]) >= key(s[j])
  }

  /** The elements of `s` whose key is `k`, in their order in `s`. */
  function WithKey<T>(s: seq<T>, key: T -> int, k: int): seq<T> {
    if s == [] then []
    else WithKey(s[..|s| - 1], key, k) + (if key(s[|s| - 1]) == k then [s[|s| - 1]] else [])
  }

  /** Inserts `x` into `t` after every element whose key is at least `x`'s,
      moving from the back as an insertion sort shifts elements. */
  function InsertDesc<T>(t: seq<T>, x: T, key: T -> int): (r: seq<T>)
    ensures |r| == |t| + 1
    decreases |t|
  {
    if t == [] || key(t[|t| - 1]) >= key(x) then t + [x]
    else InsertDesc(t[..|t| - 1], x, key) + [t[|t| - 1]]
  }

  /** The stable descending sort of `s`. */
  function SortDesc<T>(s: seq<T>, key: T -> int): (r: seq<T>)
    ensures |r| == |s|
  {
    if s == [] then [] else InsertDesc(SortDesc(s[..|s| - 1], key), s[|s| - 1], key)
  }

  lemma {:induction false} InsertDescPermutes<T>(t: seq<T>, x: T, key: T -> int)
    ensures multiset(InsertDesc(t, x, key)) == multiset(t) + multiset{x}
    decreases |t|
  {
    if t == [] || key(t[|t| - 1]) >= key(x) {
    } else {
      var init, last := t[..|t| - 1], t[|t| - 1];
      InsertDescPermutes(init, x, key);
      assert t == init + [last];
    }
  }

  lemma {:induction false} InsertDescSorted<T>(t: seq<T>, x: T, key: T -> int)
    requires SortedDesc(t, key)
    ensures SortedDesc(InsertDesc(t, x, key), key)
    decreases |t|
  {
    if t == [] || key(t[|t| - 1]) >= key(x) {
      var r := t + [x];
      forall i, j | 0 <= i < j < |r| ensures key(r[i]) >= key(r[j]) {
        if j == |t| && i < |t| - 1 {
          assert key(t[i]) >= key(t[|t| - 1]);
        }
      }
    } else {
      var init, last := t[..|t| - 1], t[|t| - 1];
      assert SortedDesc(init, key);
      InsertDescSorted(init, x, key);
      var front := InsertDesc(init, x, key);
      InsertDescPermutes(init, x, key);
      forall i | 0 <= i < |front| ensures key(front[i]) >= key(last) {
        assert front[i] in multiset(front);
        if front[i] != x {
          assert front[i] in multiset(init);
          var m :| 0 <= m < |init| && init[m] == front[i];
          assert t[m] == init[m];
        }
      }
      var r := front + [last];
      forall i, j | 0 <= i < j < |r| ensures key(r[i]) >= key(r[j]) {
        if j < |front| {
          assert r[i] == front[i] && r[j] == front[j];
        }
      }
    }
  }

  /** Inserting `x` adds it to the end of its own key's run and disturbs no
      other run. */
  lemma {:induction false} InsertDescWithKey<T>(t: seq<T>, x: T, key: T -> int, k: int)
    ensures WithKey(InsertDesc(t, x, key), key, k)
         == WithKey(t, key, k) + (if key(x) == k then [x] else [])
    decreases |t|
  {
    if t == [] || key(t[|t| - 1]) >= key(x) {
      var r := t + [x];
      assert r[..|r| - 1] == t;
    } else {
      var init, last := t[..|t| - 1], t[|t| - 1];
      var r := InsertDesc(init, x, key) + [last];
      assert r[..|r| - 1] == InsertDesc(init, x, key);
      InsertDescWithKey(init, x, key, k);
    }
  }

  /** The sort is a permutation of its input. */
  lemma {:induction false} SortDescPermutes<T>(s: seq<T>, key: T -> int)
    ensures multiset(SortDesc(s, key)) == multiset(s)
  {
    if s != [] {
      var init, last := s[..|s| - 1], s[|s| - 1];
      SortDescPermutes(init, key);
      InsertDescPermutes(SortDesc(init, key), last, key);
      assert s == init + [last];
    }
  }

  /** The sort is ordered by non-increasing key. */
  lemma {:induction false} SortDescSorted<T>(s: seq<T>, key: T -> int)
    ensures SortedDesc(SortDesc(s, key), key)
  {
    if s != [] {
      SortDescSorted(s[..|s| - 1], key);
      InsertDescSorted(SortDesc(s[..|s| - 1], key), s[|s| - 1], key);
    }
  }

  /** The sort is stable: elements with equal keys keep their input order. */
  lemma {:induction false} SortDescStable<T>(s: seq<T>, key: T -> int, k: int)
    ensures WithKey(SortDesc(s, key), key, k) == WithKey(s, key, k)
  {
    if s != [] {
      var init, last := s[..|s| - 1], s[|s| - 1];
      SortDescStable(init, key, k);
      InsertDescWithKey(SortDesc(init, key), last, key, k);
    }
  }

  lemma {:induction false} WithKeyMember<T>(s: seq<T>, key: T -> int, k: int, x: T)
    requires x in WithKey(s, key, k)
    ensures x in s && key(x) == k
  {
    if s != [] {
      var init := s[..|s| - 1];
      if x in WithKey(init, key, k) {
        WithKeyMember(init, key, k, x);
        assert init == s[..|s| - 1];
      }
    }
  }

  /** Two orderings that are both non-increasing by key and agree on the
      order within every key are the same sequence. */
  lemma {:induction false} SortedRunsDetermine<T>(u: seq<T>, v: seq<T>, key: T -> int)
    requires |u| == |v|
    requires SortedDesc(u, key) && SortedDesc(v, key)
    requires forall k :: WithKey(u, key, k) == WithKey(v, key, k)
    ensures u == v
    decreases |u|
  {
    if u != [] {
      var u', a := u[..|u| - 1], u[|u| - 1];
      var v', b := v[..|v| - 1], v[|v| - 1];
      LastKeyIsLeast(u, v, key);
      LastKeyIsLeast(v, u, key);
      assert key(a) == key(b);
      var ka := key(a);
      assert WithKey(u, key, ka) == WithKey(u', key, ka) + [a];
      assert WithKey(v, key, ka) == WithKey(v', key, ka) + [b];
      assert WithKey(u, key, ka) == WithKey(v, key, ka);
      assert a == WithKey(u, key, ka)[|WithKey(u, key, ka)| - 1];
      forall k ensures WithKey(u', key, k) == WithKey(v', key, k) {
        if k == ka {
          assert WithKey(u', key, ka) == WithKey(u, key, ka)[..|WithKey(u, key, ka)| - 1];
        } else {
          assert WithKey(u', key, k) == WithKey(u, key, k);
          assert WithKey(v', key, k) == WithKey(v, key, k);
        }
      }
      SortedRunsDetermine(u', v', key);
      assert u == u' + [a] && v == v' + [b];
    }
  }

  /** The last key of a non-increasing sequence is no larger than any key
      that occurs in another sequence with the same runs. */
  lemma LastKeyIsLeast<T>(u: seq<T>, v: seq<T>, key: T -> int)
    requires u != [] && v != []
    requires SortedDesc(u, key)
    requires forall k :: WithKey(u, key, k) == WithKey(v, key, k)
    ensures key(u[|u| - 1]) <= key(v[|v| - 1])
  {
    var b := v[|v| - 1];
    var run := WithKey(v, key, key(b));
    assert run == WithKey(v[..|v| - 1], key, key(b)) + [b];
    assert b in WithKey(u, key, key(b));
    WithKeyMember(u, key, key(b), b);
    var m :| 0 <= m < |u| && u[m] == b;
    assert key(u[m]) >= key(u[|u| - 1]);
  }

  /** Any stable descending sort of `s` gives `SortDesc(s, key)`: the
      insertion sort stands for every stable sort with this comparator. */
  lemma {:induction false} StableSortIsSortDesc<T>(r: seq<T>, s: seq<T>, key: T -> int)
    requires multiset(r) == multiset(s)
    requires SortedDesc(r, key)
    requires forall k :: WithKey(r, key, k) == WithKey(s, key, k)
    ensures r == SortDesc(s, key)
  {
    assert |r| == |multiset(r)| == |multiset(s)| == |s|;
    SortDescSorted(s, key);
    forall k ensures WithKey(r, key, k) == WithKey(SortDesc(s, key), key, k) {
      SortDescStable(s, key, k);
    }
    SortedRunsDetermine(r, SortDesc(s, key), key);
  }

  /** Sorts `a` in place: each element in turn is moved left past the
      elements with a smaller key. */
  method InsertionSortDesc<T>(a: array<T>, key: T -> int)
    modifies a
    ensures a[..] == SortDesc(old(a[..]), key)
  {
    ghost var s := a[..];
    var i := 0;
    while i < a.Length
      invariant 0 <= i <= a.Length
      invariant a[..i] == SortDesc(s[..i], key)
      invariant a[i..] == s[i..]
    {
      ghost var before := a[..];
      InsertLast(a, i, key);
      assert before[..i] == SortDesc(s[..i], key);
      assert before[i] == s[i];
      assert s[..i + 1][..i] == s[..i];
      assert a[i + 1..] == s[i + 1..] by {
        assert before[i + 1..] == s[i + 1..];
      }
      i := i + 1;
    }
    assert s[..a.Length] == s;
  }

  /** Moves `a[i]` left past the elements before it with a smaller key,
      shifting each of them one place right. */
  method InsertLast<T>(a: array<T>, i: nat, key: T -> int)
    requires i < a.Length
    modifies a
    ensures a[..i + 1] == InsertDesc(old(a[..i]), old(a[i]), key)
    ensures a[i + 1..] == old(a[i + 1..])
  {
    ghost var t := a[..i];
    var x := a[i];
    var j := i;
    assert t[..j] == t && t[j..i] == [];
    while j > 0 && key(a[j - 1]) < key(x)
      invariant 0 <= j <= i
      invariant forall m :: 0 <= m < j ==> a[m] == t[m]
      invariant forall m :: j < m <= i ==> a[m] == t[m - 1]
      invariant forall m :: i < m < a.Length ==> a[m] == old(a[m])
      invariant InsertDesc(t, x, key) == InsertDesc(t[..j], x, key) + t[j..i]
    {
      ShiftStep(t, x, key, j, i);
      a[j] := a[j - 1];
      j := j - 1;
    }
    InsertStops(t, x, key, j);
    a[j] := x;
    forall m | 0 <= m <= i ensures a[m] == (t[..j] + [x] + t[j..i])[m] {
    }
    assert a[..i + 1] == t[..j] + [x] + t[j..i];
  }

  /** Where the inner loop stops, `x` goes right after the prefix. */
  lemma InsertStops<T>(t: seq<T>, x: T, key: T -> int, j: nat)
    requires j <= |t|
    requires j > 0 ==> key(t[j - 1]) >= key(x)
    ensures InsertDesc(t[..j], x, key) == t[..j] + [x]
  {
  }

  /** One shift of the inner loop: the element before the gap has a smaller
      key than the one being inserted, so it moves behind it. */
  lemma ShiftStep<T>(t: seq<T>, x: T, key: T -> int, j: nat, i: nat)
    requires 0 < j <= i == |t|
    requires key(t[j - 1]) < key(x)
    ensures InsertDesc(t[..j], x, key) + t[j..i] == InsertDesc(t[..j - 1], x, key) + t[j - 1..i]
  {
    assert t[..j][..j - 1] == t[..j - 1];
    assert t[j - 1..i] == [t[j - 1]] + t[j..i];
  }
}

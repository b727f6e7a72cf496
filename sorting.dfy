/** Python's `sorted(s, key=key, reverse=True)`: a stable sort, largest key first.
    Written as an insertion sort; the lemmas state what the library call promises. */
module Sorting {
  import opened Seqs

  ghost predicate NonIncreasing<T>(s: seq<T>, key: T -> real) {
    forall i, j :: 0 <= i < j < |s| ==> key(s[i]) >= key(s[j])
  }

  /** The elements of `s` whose key equals `v`, in their order in `s`. */
  function WithKey<T>(s: seq<T>, key: T -> real, v: real): seq<T> {
    if s == [] then [] else (if key(s[0]) == v then [s[0]] else []) + WithKey(s[1..], key, v)
  }

  /** Puts `x` after every element of `t` with a strictly larger key. */
  function Insert<T>(x: T, t: seq<T>, key: T -> real): seq<T> {
    if t == [] || key(t[0]) <= key(x) then [x] + t
    else [t[0]] + Insert(x, t[1..], key)
  }

  function SortDesc<T>(s: seq<T>, key: T -> real): seq<T> {
    if s == [] then [] else Insert(s[0], SortDesc(s[1..], key), key)
  }

  lemma WithKeyCons<T>(a: T, s: seq<T>, key: T -> real, v: real)
    ensures WithKey([a] + s, key, v) == (if key(a) == v then [a] else []) + WithKey(s, key, v)
  {
    assert ([a] + s)[0] == a && ([a] + s)[1..] == s;
  }

  lemma {:induction false} InsertPerm<T>(x: T, t: seq<T>, key: T -> real)
    ensures multiset(Insert(x, t, key)) == multiset(t) + multiset{x}
  {
    if !(t == [] || key(t[0]) <= key(x)) {
      InsertPerm(x, t[1..], key);
      assert t == [t[0]] + t[1..];
    }
  }

  lemma {:induction false} InsertSorted<T>(x: T, t: seq<T>, key: T -> real)
    requires NonIncreasing(t, key)
    ensures NonIncreasing(Insert(x, t, key), key)
  {
    var r := Insert(x, t, key);
    if t == [] || key(t[0]) <= key(x) {
      assert r == [x] + t;
    } else {
      var rest := Insert(x, t[1..], key);
      TailNonIncreasing(t, key);
      InsertSorted(x, t[1..], key);
      InsertPerm(x, t[1..], key);
      assert r == [t[0]] + rest;
      forall j | 0 < j < |r| ensures key(r[0]) >= key(r[j]) {
        assert r[j] == rest[j - 1];
        assert r[j] in multiset(rest);
        if r[j] != x {
          HeadDominates(t, key, r[j]);
        }
      }
    }
  }

  lemma TailNonIncreasing<T>(t: seq<T>, key: T -> real)
    requires t != [] && NonIncreasing(t, key)
    ensures NonIncreasing(t[1..], key)
  {
    forall i, j | 0 <= i < j < |t| - 1 ensures key(t[1..][i]) >= key(t[1..][j]) {
      assert t[1..][i] == t[i + 1] && t[1..][j] == t[j + 1];
    }
  }

  /** The head of a non-increasing sequence has the largest key. */
  lemma HeadDominates<T>(t: seq<T>, key: T -> real, y: T)
    requires t != [] && NonIncreasing(t, key) && y in t[1..]
    ensures key(t[0]) >= key(y)
  {
    var k :| 0 <= k < |t| - 1 && t[1..][k] == y;
    assert t[k + 1] == y;
  }

  /** Every element placed before `x` has a strictly larger key, so inserting `x` puts it
      first among the elements that share its key. */
  lemma {:induction false} InsertWithKey<T>(x: T, t: seq<T>, key: T -> real, v: real)
    ensures WithKey(Insert(x, t, key), key, v) == (if key(x) == v then [x] else []) + WithKey(t, key, v)
  {
    if t == [] || key(t[0]) <= key(x) {
      WithKeyCons(x, t, key, v);
    } else {
      var t1 := t[1..];
      var rest := Insert(x, t1, key);
      InsertWithKey(x, t1, key, v);
      InsertCons(x, t, key);
      WithKeyCons(t[0], rest, key, v);
      assert t == [t[0]] + t1;
      WithKeyCons(t[0], t1, key, v);
      var h0 := if key(t[0]) == v then [t[0]] else [];
      var hx := if key(x) == v then [x] else [];
      ConcatSwap(h0, hx, WithKey(t1, key, v));
    }
  }

  lemma InsertCons<T>(x: T, t: seq<T>, key: T -> real)
    requires t != [] && key(t[0]) > key(x)
    ensures Insert(x, t, key) == [t[0]] + Insert(x, t[1..], key)
  {
  }

  lemma ConcatSwap<T>(a: seq<T>, b: seq<T>, w: seq<T>)
    requires a == [] || b == []
    ensures a + (b + w) == b + (a + w)
  {
    if a == [] {
      assert a + (b + w) == b + w == b + (a + w);
    } else {
      assert a + (b + w) == a + w == b + (a + w);
    }
  }

  lemma {:induction false} InsertDistinct<T>(x: T, t: seq<T>, key: T -> real)
    requires NonIncreasing(t, key) && Distinct(t) && x !in t
    ensures Distinct(Insert(x, t, key))
  {
    var r := Insert(x, t, key);
    if t == [] || key(t[0]) <= key(x) {
      assert r == [x] + t;
    } else {
      var rest := Insert(x, t[1..], key);
      InsertDistinct(x, t[1..], key);
      InsertPerm(x, t[1..], key);
      assert t[0] !in t[1..];
      assert t[0] !in multiset(rest);
      assert r == [t[0]] + rest;
    }
  }

  lemma {:induction false} SortDescPerm<T>(s: seq<T>, key: T -> real)
    ensures multiset(SortDesc(s, key)) == multiset(s)
  {
    if s != [] {
      SortDescPerm(s[1..], key);
      InsertPerm(s[0], SortDesc(s[1..], key), key);
      assert s == [s[0]] + s[1..];
    }
  }

  lemma {:induction false} SortDescSorted<T>(s: seq<T>, key: T -> real)
    ensures NonIncreasing(SortDesc(s, key), key)
  {
    if s != [] {
      SortDescSorted(s[1..], key);
      InsertSorted(s[0], SortDesc(s[1..], key), key);
    }
  }

  lemma {:induction false} SortDescStable<T>(s: seq<T>, key: T -> real, v: real)
    ensures WithKey(SortDesc(s, key), key, v) == WithKey(s, key, v)
  {
    if s != [] {
      var t := SortDesc(s[1..], key);
      SortDescStable(s[1..], key, v);
      InsertWithKey(s[0], t, key, v);
      assert s == [s[0]] + s[1..];
      WithKeyCons(s[0], s[1..], key, v);
    }
  }

  /** The sorted sequence is a permutation, sorted largest first, and stable:
      the elements sharing any one key keep their relative order. */
  lemma SortDescProps<T>(s: seq<T>, key: T -> real)
    ensures multiset(SortDesc(s, key)) == multiset(s)
    ensures |SortDesc(s, key)| == |s|
    ensures NonIncreasing(SortDesc(s, key), key)
    ensures forall v :: WithKey(SortDesc(s, key), key, v) == WithKey(s, key, v)
  {
    SortDescPerm(s, key);
    assert |multiset(SortDesc(s, key))| == |multiset(s)|;
    SortDescSorted(s, key);
    forall v ensures WithKey(SortDesc(s, key), key, v) == WithKey(s, key, v) {
      SortDescStable(s, key, v);
    }
  }

  /** The elements with key `v` among the first m of `s` lead those of all of `s`. */
  lemma {:induction false} WithKeyPrefix<T>(s: seq<T>, key: T -> real, v: real, m: nat)
    requires m <= |s|
    ensures WithKey(s[..m], key, v) <= WithKey(s, key, v)
  {
    if m == 0 {
      assert s[..m] == [];
    } else {
      var t := s[..m];
      assert t[0] == s[0] && t[1..] == s[1..][..m - 1];
      WithKeyPrefix(s[1..], key, v, m - 1);
      var h := if key(s[0]) == v then [s[0]] else [];
      var a := WithKey(t[1..], key, v);
      var b := WithKey(s[1..], key, v);
      assert WithKey(t, key, v) == h + a;
      assert WithKey(s, key, v) == h + b;
      assert a == b[..|a|];
      assert b == b[..|a|] + b[|a|..];
      assert h + b == (h + a) + b[|a|..];
    }
  }

  lemma {:induction false} SortDescDistinct<T>(s: seq<T>, key: T -> real)
    requires Distinct(s)
    ensures Distinct(SortDesc(s, key))
  {
    if s != [] {
      SortDescDistinct(s[1..], key);
      SortDescPerm(s[1..], key);
      SortDescSorted(s[1..], key);
      assert s[0] !in s[1..];
      assert s[0] !in multiset(SortDesc(s[1..], key));
      InsertDistinct(s[0], SortDesc(s[1..], key), key);
    }
  }

  /** `a` occurs somewhere before `b` in `s`. */
  ghost predicate Before<T>(s: seq<T>, a: T, b: T) {
    exists p, q :: 0 <= p < q < |s| && s[p] == a && s[q] == b
  }

  lemma {:induction false} WithKeyMember<T>(s: seq<T>, key: T -> real, v: real, x: T)
    ensures x in WithKey(s, key, v) <==> x in s && key(x) == v
  {
    if s != [] {
      WithKeyMember(s[1..], key, v, x);
      assert s == [s[0]] + s[1..];
    }
  }

  /** Filtering by a key keeps the order of the elements that have it. */
  lemma {:induction false} WithKeyKeepsBefore<T>(s: seq<T>, key: T -> real, v: real, a: T, b: T)
    requires Before(s, a, b) && key(a) == v && key(b) == v
    ensures Before(WithKey(s, key, v), a, b)
  {
    var p, q :| 0 <= p < q < |s| && s[p] == a && s[q] == b;
    var h := if key(s[0]) == v then [s[0]] else [];
    var w := WithKey(s[1..], key, v);
    assert WithKey(s, key, v) == h + w;
    if p == 0 {
      assert s[1..][q - 1] == b;
      WithKeyMember(s[1..], key, v, b);
      var k :| 0 <= k < |w| && w[k] == b;
      assert (h + w)[0] == a && (h + w)[k + 1] == b;
    } else {
      assert s[1..][p - 1] == a && s[1..][q - 1] == b;
      WithKeyKeepsBefore(s[1..], key, v, a, b);
      var p', q' :| 0 <= p' < q' < |w| && w[p'] == a && w[q'] == b;
      assert (h + w)[|h| + p'] == a && (h + w)[|h| + q'] == b;
    }
  }

  /** An order among the filtered elements is an order in `s`. */
  lemma {:induction false} WithKeyReflectsBefore<T>(s: seq<T>, key: T -> real, v: real, a: T, b: T)
    requires Before(WithKey(s, key, v), a, b)
    ensures Before(s, a, b)
  {
    var h := if key(s[0]) == v then [s[0]] else [];
    var w := WithKey(s[1..], key, v);
    assert WithKey(s, key, v) == h + w;
    var p, q :| 0 <= p < q < |h + w| && (h + w)[p] == a && (h + w)[q] == b;
    if h != [] && p == 0 {
      assert w[q - 1] == b;
      WithKeyMember(s[1..], key, v, b);
      var k :| 0 <= k < |s[1..]| && s[1..][k] == b;
      assert s[0] == a && s[k + 1] == b;
    } else {
      assert w[p - |h|] == a && w[q - |h|] == b;
      WithKeyReflectsBefore(s[1..], key, v, a, b);
      var p', q' :| 0 <= p' < q' < |s[1..]| && s[1..][p'] == a && s[1..][q'] == b;
      assert s[p' + 1] == a && s[q' + 1] == b;
    }
  }

  /** Stability position by position: two elements of equal key appear in the sorted
      sequence in the order they had in `s`. */
  lemma SortDescTieOrder<T>(s: seq<T>, key: T -> real, i: nat, j: nat)
    requires i < j < |SortDesc(s, key)|
    requires key(SortDesc(s, key)[i]) == key(SortDesc(s, key)[j])
    ensures Before(s, SortDesc(s, key)[i], SortDesc(s, key)[j])
  {
    var t := SortDesc(s, key);
    var v := key(t[i]);
    WithKeyKeepsBefore(t, key, v, t[i], t[j]);
    SortDescStable(s, key, v);
    WithKeyReflectsBefore(s, key, v, t[i], t[j]);
  }
}

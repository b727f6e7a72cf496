/** Sequence helpers shared by the model: distinctness, first-seen deduplication,
    flattening and index ranges. */
module Seqs {
  import opened Wrappers

  ghost predicate Distinct<T>(s: seq<T>) {
    forall i, j :: 0 <= i < j < |s| ==> s[i] != s[j]
  }

  function Elems<T>(s: seq<T>): set<T> {
    set x | x in s
  }

  /** A duplicate-free sequence has exactly as many elements as its set. */
  lemma {:induction false} DistinctCard<T>(s: seq<T>)
    requires Distinct(s)
    ensures |Elems(s)| == |s|
  {
    if s != [] {
      assert Distinct(s[1..]) by {
        forall i, j | 0 <= i < j < |s[1..]| ensures s[1..][i] != s[1..][j] {
          assert s[1..][i] == s[i + 1] && s[1..][j] == s[j + 1];
        }
      }
      DistinctCard(s[1..]);
      assert Elems(s) == {s[0]} + Elems(s[1..]);
      assert s[0] !in Elems(s[1..]);
    }
  }

  /** The elements of `s` that are not in `seen`, each kept at its first occurrence:
      what a loop appending `x` when `x not in seen` (and then adding it to `seen`) builds. */
  function DedupFrom<T>(s: seq<T>, seen: set<T>): (r: seq<T>)
    ensures Elems(r) == Elems(s) - seen
    ensures Distinct(r)
    ensures |r| <= |s|
  {
    if s == [] then []
    else
      assert Elems(s) == {s[0]} + Elems(s[1..]);
      if s[0] in seen then DedupFrom(s[1..], seen)
      else
        var rest := DedupFrom(s[1..], seen + {s[0]});
        assert Elems([s[0]] + rest) == {s[0]} + Elems(rest);
        [s[0]] + rest
  }

  function Dedup<T(==)>(s: seq<T>): seq<T> {
    DedupFrom(s, {})
  }

  /** Deduplicating a concatenation keeps everything new from `a` first, then
      whatever of `b` was seen neither before nor in `a`. */
  lemma {:induction false} DedupFromAppend<T>(a: seq<T>, b: seq<T>, seen: set<T>)
    ensures DedupFrom(a + b, seen) == DedupFrom(a, seen) + DedupFrom(b, seen + Elems(a))
  {
    if a == [] {
      assert a + b == b;
      assert Elems(a) == {};
      assert seen + Elems(a) == seen;
    } else {
      assert (a + b)[0] == a[0];
      assert (a + b)[1..] == a[1..] + b;
      assert Elems(a) == {a[0]} + Elems(a[1..]);
      if a[0] in seen {
        DedupFromAppend(a[1..], b, seen);
        assert seen + Elems(a[1..]) == seen + Elems(a);
      } else {
        DedupFromAppend(a[1..], b, seen + {a[0]});
        assert seen + {a[0]} + Elems(a[1..]) == seen + Elems(a);
      }
    }
  }

  /** One step of a dedup loop over a prefix of `s`. */
  lemma DedupStep<T>(s: seq<T>, i: nat)
    requires i < |s|
    ensures Dedup(s[..i + 1]) ==
            Dedup(s[..i]) + (if s[i] in Elems(s[..i]) then [] else [s[i]])
  {
    assert s[..i + 1] == s[..i] + [s[i]];
    DedupFromAppend(s[..i], [s[i]], {});
    assert {} + Elems(s[..i]) == Elems(s[..i]);
    assert [s[i]][1..] == [];
  }

  /** Appending one element to a dedup loop's input appends it to the output unless seen. */
  lemma DedupSnoc<T>(s: seq<T>, x: T)
    ensures Dedup(s + [x]) == Dedup(s) + (if x in Elems(s) then [] else [x])
  {
    DedupFromAppend(s, [x], {});
    assert {} + Elems(s) == Elems(s);
    assert [x][1..] == [];
  }

  /** The concatenation of a sequence of sequences. */
  function Flatten<T>(ss: seq<seq<T>>): (r: seq<T>)
  {
    if ss == [] then [] else Flatten(ss[..|ss| - 1]) + ss[|ss| - 1]
  }

  lemma FlattenPair<T>(a: seq<T>, b: seq<T>)
    ensures Flatten([a, b]) == a + b
  {
    var one: seq<seq<T>> := [a];
    var two: seq<seq<T>> := [a, b];
    assert one[..0] == [];
    assert Flatten(one) == Flatten(one[..0]) + a;
    assert Flatten(one) == a;
    assert two[..1] == one;
    assert Flatten(two) == Flatten(two[..1]) + b;
  }

  function SumLengths<T>(ss: seq<seq<T>>): nat {
    if ss == [] then 0 else SumLengths(ss[..|ss| - 1]) + |ss[|ss| - 1]|
  }

  lemma {:induction false} FlattenLength<T>(ss: seq<seq<T>>)
    ensures |Flatten(ss)| == SumLengths(ss)
  {
    if ss != [] {
      FlattenLength(ss[..|ss| - 1]);
    }
  }

  lemma {:induction false} FlattenMember<T>(ss: seq<seq<T>>, x: T)
    ensures x in Flatten(ss) <==> exists i :: 0 <= i < |ss| && x in ss[i]
  {
    if ss != [] {
      var init := ss[..|ss| - 1];
      FlattenMember(init, x);
      if x in Flatten(ss) && x !in ss[|ss| - 1] {
        var i :| 0 <= i < |init| && x in init[i];
        assert ss[i] == init[i];
      }
      if x !in Flatten(ss) {
        forall i | 0 <= i < |ss| ensures x !in ss[i] {
          if i < |ss| - 1 { assert ss[i] == init[i]; }
        }
      }
    }
  }

  /** Block b of `ss` starts at the summed length of the blocks before it. */
  lemma {:induction false} FlattenAt<T>(ss: seq<seq<T>>, b: nat, j: nat)
    requires b < |ss| && j < |ss[b]|
    ensures SumLengths(ss[..b]) + j < |Flatten(ss)|
    ensures Flatten(ss)[SumLengths(ss[..b]) + j] == ss[b][j]
  {
    var n := |ss| - 1;
    var init := ss[..n];
    FlattenLength(ss);
    FlattenLength(init);
    if b == n {
      assert ss[..b] == init;
    } else {
      assert ss[..b] == init[..b];
      assert init[b] == ss[b];
      FlattenAt(init, b, j);
    }
  }

  /** Block sequences whose blocks have equal lengths have equal summed lengths. */
  lemma {:induction false} SumLengthsSameShape<A, B>(ss: seq<seq<A>>, tt: seq<seq<B>>)
    requires |ss| == |tt| && forall b :: 0 <= b < |ss| ==> |ss[b]| == |tt[b]|
    ensures SumLengths(ss) == SumLengths(tt)
  {
    if ss != [] {
      var n := |ss| - 1;
      SumLengthsSameShape(ss[..n], tt[..n]);
    }
  }

  /** Where each of four concatenated sequences lies in the result. */
  lemma Concat4<T>(a: seq<T>, b: seq<T>, c: seq<T>, d: seq<T>)
    ensures var s := a + b + c + d;
            var m := |a| + |b|;
            var k := m + |c|;
            |s| == k + |d| &&
            (forall i :: 0 <= i < |a| ==> s[i] == a[i]) &&
            (forall i :: |a| <= i < m ==> s[i] == b[i - |a|]) &&
            (forall i :: m <= i < k ==> s[i] == c[i - m]) &&
            (forall i :: k <= i < |s| ==> s[i] == d[i - k])
  {
  }

  /** The present results of `f` over `xs`, in order. */
  function FilterMap<A, B>(xs: seq<A>, f: A -> Option<B>): (ys: seq<B>)
    ensures |ys| <= |xs|
  {
    if xs == [] then []
    else
      var last := f(xs[|xs| - 1]);
      FilterMap(xs[..|xs| - 1], f) + (if last.Some? then [last.value] else [])
  }

  lemma FilterMapStep<A, B>(xs: seq<A>, f: A -> Option<B>, i: nat)
    requires i < |xs|
    ensures FilterMap(xs[..i + 1], f) == FilterMap(xs[..i], f) + (if f(xs[i]).Some? then [f(xs[i]).value] else [])
  {
    assert xs[..i + 1][..i] == xs[..i];
  }

  /** Every present result is kept. */
  lemma {:induction false} FilterMapIncluded<A, B>(xs: seq<A>, f: A -> Option<B>, i: nat)
    requires i < |xs| && f(xs[i]).Some?
    ensures f(xs[i]).value in FilterMap(xs, f)
  {
    var n := |xs| - 1;
    var init := xs[..n];
    assert FilterMap(xs, f) == FilterMap(init, f) + (if f(xs[n]).Some? then [f(xs[n]).value] else []);
    if i < n {
      assert init[i] == xs[i];
      FilterMapIncluded(init, f, i);
    }
  }

  /** Every kept value is the present result of some element. */
  lemma {:induction false} FilterMapFrom<A, B>(xs: seq<A>, f: A -> Option<B>, y: B)
    requires y in FilterMap(xs, f)
    ensures exists i :: 0 <= i < |xs| && f(xs[i]) == Some(y)
  {
    var n := |xs| - 1;
    if y in FilterMap(xs[..n], f) {
      FilterMapFrom(xs[..n], f, y);
      var i :| 0 <= i < n && f(xs[..n][i]) == Some(y);
      assert xs[..n][i] == xs[i];
    } else {
      assert f(xs[n]) == Some(y);
    }
  }

  /** The positions whose present results make up `FilterMap(xs, f)`, increasing. */
  lemma {:induction false} FilterMapOrigins<A, B>(xs: seq<A>, f: A -> Option<B>) returns (idx: seq<nat>)
    ensures |idx| == |FilterMap(xs, f)|
    ensures forall p :: 0 <= p < |idx| ==> idx[p] < |xs| && f(xs[idx[p]]) == Some(FilterMap(xs, f)[p])
    ensures forall p, q :: 0 <= p < q < |idx| ==> idx[p] < idx[q]
  {
    if xs == [] {
      return [];
    }
    var n := |xs| - 1;
    var init := xs[..n];
    var ys0 := FilterMap(init, f);
    var idx0 := FilterMapOrigins(init, f);
    var ys := FilterMap(xs, f);
    if f(xs[n]).None? {
      assert ys == ys0;
      idx := idx0;
      forall p | 0 <= p < |idx| ensures idx[p] < |xs| && f(xs[idx[p]]) == Some(ys[p]) {
        assert init[idx0[p]] == xs[idx0[p]];
      }
    } else {
      assert ys == ys0 + [f(xs[n]).value];
      idx := idx0 + [n];
      forall p | 0 <= p < |idx| ensures idx[p] < |xs| && f(xs[idx[p]]) == Some(ys[p]) {
        if p < |idx0| {
          assert idx[p] == idx0[p] && ys[p] == ys0[p];
          assert init[idx0[p]] == xs[idx0[p]];
        }
      }
      forall p, q | 0 <= p < q < |idx| ensures idx[p] < idx[q] {
        if q == |idx0| {
          assert idx[p] == idx0[p] < n;
        }
      }
    }
  }
}

/** Order-preserving de-duplication, as done by a `seen` set plus append
    loop and by `list(dict.fromkeys(xs))`. */
module Seqs {

  predicate NoDup<T(==)>(s: seq<T>) {
    forall i, j :: 0 <= i < j < |s| ==> s[i] != s[j]
  }

  function Elements<T>(s: seq<T>): set<T> {
    set x | x in s
  }

  /** The elements of `s` in order of their first occurrence. */
  function Dedup<T(==)>(s: seq<T>): (r: seq<T>)
    ensures NoDup(r)
    ensures forall i :: 0 <= i < |r| ==> r[i] in s
    ensures forall i :: 0 <= i < |s| ==> s[i] in r
    ensures |r| <= |s|
  {
    if s == [] then []
    else
      var init := s[..|s| - 1];
      var r := Dedup(init);
      if s[|s| - 1] in init then r else r + [s[|s| - 1]]
  }

  /** Adding an element not yet present keeps a sequence repeat-free. */
  lemma NoDupSnoc<T>(s: seq<T>, x: T)
    requires NoDup(s) && x !in s
    ensures NoDup(s + [x])
  {
    forall i, j | 0 <= i < j < |s + [x]| ensures (s + [x])[i] != (s + [x])[j] {
      if j == |s| {
        assert (s + [x])[i] == s[i];
      }
    }
  }

  /** The first element always survives, in first place. */
  lemma {:induction false} DedupHead<T>(s: seq<T>)
    requires s != []
    ensures Dedup(s) != [] && Dedup(s)[0] == s[0]
  {
    if |s| > 1 {
      var init := s[..|s| - 1];
      DedupHead(init);
    }
  }

  /** A sequence without repetitions is its own de-duplication. */
  lemma {:induction false} DedupNoDupIdentity<T>(s: seq<T>)
    requires NoDup(s)
    ensures Dedup(s) == s
  {
    if s != [] {
      var init := s[..|s| - 1];
      assert NoDup(init);
      DedupNoDupIdentity(init);
      assert s[|s| - 1] !in init;
      assert init + [s[|s| - 1]] == s;
    }
  }

  /** A sequence without repetitions has as many elements as its set. */
  lemma {:induction false} NoDupCardinality<T>(s: seq<T>)
    requires NoDup(s)
    ensures |Elements(s)| == |s|
  {
    if s != [] {
      var init := s[..|s| - 1];
      assert NoDup(init);
      NoDupCardinality(init);
      assert Elements(s) == Elements(init) + {s[|s| - 1]};
      assert s[|s| - 1] !in Elements(init);
    }
  }

  /** De-duplication keeps one entry per distinct element. */
  lemma DedupLength<T>(s: seq<T>)
    ensures |Dedup(s)| == |Elements(s)|
  {
    NoDupCardinality(Dedup(s));
    assert Elements(Dedup(s)) == Elements(s);
  }

  /** The `seen`-set loop: keep an element only the first time it appears. */
  method DedupInOrder<T(==)>(xs: seq<T>) returns (unique: seq<T>)
    ensures unique == Dedup(xs)
  {
    unique := [];
    var seen: set<T> := {};
    for i := 0 to |xs|
      invariant unique == Dedup(xs[..i])
      invariant seen == Elements(xs[..i])
    {
      var x := xs[i];
      assert xs[..i + 1][..i] == xs[..i];
      if x !in seen {
        seen := seen + {x};
        unique := unique + [x];
      }
      assert Elements(xs[..i + 1]) == Elements(xs[..i]) + {x};
    }
    assert xs[..|xs|] == xs;
  }

  /** The concatenation of `f(x)` over `xs`, in order: what a loop appending
      the contribution of each element builds. */
  function Gather<T, U>(xs: seq<T>, f: T -> seq<U>): seq<U> {
    if xs == [] then []
    else Gather(xs[..|xs| - 1], f) + f(xs[|xs| - 1])
  }

  /** Each element contributes on its own. */
  lemma {:induction false} GatherAppend<T, U>(a: seq<T>, b: seq<T>, f: T -> seq<U>)
    ensures Gather(a + b, f) == Gather(a, f) + Gather(b, f)
    decreases |b|
  {
    if b == [] {
      assert a + b == a;
    } else {
      var b0 := b[..|b| - 1];
      assert (a + b)[..|a + b| - 1] == a + b0;
      GatherAppend(a, b0, f);
    }
  }

  /** Every gathered entry comes from the contribution of some element. */
  lemma {:induction false} GatherFrom<T, U>(xs: seq<T>, f: T -> seq<U>)
    ensures forall k :: 0 <= k < |Gather(xs, f)| ==>
      exists i :: 0 <= i < |xs| && Gather(xs, f)[k] in f(xs[i])
  {
    if xs != [] {
      var init := xs[..|xs| - 1];
      GatherFrom(init, f);
      var r0 := Gather(init, f);
      var last := f(xs[|xs| - 1]);
      forall k | 0 <= k < |Gather(xs, f)|
        ensures exists i :: 0 <= i < |xs| && Gather(xs, f)[k] in f(xs[i])
      {
        if k < |r0| {
          var i :| 0 <= i < |init| && r0[k] in f(init[i]);
          assert xs[i] == init[i];
        } else {
          assert Gather(xs, f)[k] == last[k - |r0|];
          assert Gather(xs, f)[k] in f(xs[|xs| - 1]);
        }
      }
    } else {
      assert Gather(xs, f) == [];
    }
  }

  /** Nothing is gathered exactly when every element contributes nothing. */
  lemma {:induction false} GatherEmpty<T, U>(xs: seq<T>, f: T -> seq<U>)
    ensures Gather(xs, f) == [] <==> forall i :: 0 <= i < |xs| ==> f(xs[i]) == []
  {
    if xs != [] {
      var init := xs[..|xs| - 1];
      GatherEmpty(init, f);
      forall i | 0 <= i < |init| ensures init[i] == xs[i] { }
    }
  }

  /** `r` is `h` of the kept elements of `xs`, in order, at positions `idx`. */
  ghost predicate Indexed<T, U>(xs: seq<T>, keep: T -> bool, h: T -> U, r: seq<U>, idx: seq<nat>) {
    && |idx| == |r|
    && (forall k :: 0 <= k < |idx| ==> idx[k] < |xs| && keep(xs[idx[k]]) && r[k] == h(xs[idx[k]]))
    && (forall k, l :: 0 <= k < l < |idx| ==> idx[k] < idx[l])
    && (forall i :: 0 <= i < |xs| && keep(xs[i]) ==> i in idx)
  }

  /** When each element contributes `h(x)` if it is kept and nothing
      otherwise, the gathered result is `h` of the kept elements in order:
      `idx` lists their positions, strictly increasing, and holds them all. */
  lemma {:induction false} GatherOrder<T, U>(xs: seq<T>, keep: T -> bool, h: T -> U, f: T -> seq<U>) returns (idx: seq<nat>)
    requires forall x :: f(x) == (if keep(x) then [h(x)] else [])
    ensures Indexed(xs, keep, h, Gather(xs, f), idx)
  {
    if xs == [] {
      idx := [];
    } else {
      var n := |xs| - 1;
      var idx0 := GatherOrder(xs[..n], keep, h, f);
      var r0 := Gather(xs[..n], f);
      if keep(xs[n]) {
        assert Gather(xs, f) == r0 + [h(xs[n])];
        idx := idx0 + [n];
        IndexedKeep(xs, keep, h, r0, idx0);
      } else {
        assert Gather(xs, f) == r0;
        idx := idx0;
        IndexedSkip(xs, keep, h, r0, idx0);
      }
    }
  }

  /** A kept last element adds its entry and its position. */
  lemma IndexedKeep<T, U>(xs: seq<T>, keep: T -> bool, h: T -> U, r0: seq<U>, idx0: seq<nat>)
    requires xs != [] && keep(xs[|xs| - 1])
    requires Indexed(xs[..|xs| - 1], keep, h, r0, idx0)
    ensures Indexed(xs, keep, h, r0 + [h(xs[|xs| - 1])], idx0 + [|xs| - 1])
  {
    var n := |xs| - 1;
    var init := xs[..n];
    var idx := idx0 + [n];
    var r := r0 + [h(xs[n])];
    forall k | 0 <= k < |idx|
      ensures idx[k] < |xs| && keep(xs[idx[k]]) && r[k] == h(xs[idx[k]])
    {
      if k < |idx0| {
        assert idx[k] == idx0[k] && r[k] == r0[k] && xs[idx0[k]] == init[idx0[k]];
      } else {
        assert idx[k] == n && r[k] == h(xs[n]);
      }
    }
    forall i | 0 <= i < |xs| && keep(xs[i]) ensures i in idx {
      if i < n {
        assert init[i] == xs[i];
        assert i in idx0;
      } else {
        assert idx[|idx| - 1] == n;
      }
    }
  }

  /** A dropped last element changes nothing. */
  lemma IndexedSkip<T, U>(xs: seq<T>, keep: T -> bool, h: T -> U, r0: seq<U>, idx0: seq<nat>)
    requires xs != [] && !keep(xs[|xs| - 1])
    requires Indexed(xs[..|xs| - 1], keep, h, r0, idx0)
    ensures Indexed(xs, keep, h, r0, idx0)
  {
    var init := xs[..|xs| - 1];
    forall k | 0 <= k < |idx0|
      ensures idx0[k] < |xs| && keep(xs[idx0[k]]) && r0[k] == h(xs[idx0[k]])
    {
      assert xs[idx0[k]] == init[idx0[k]];
    }
    forall i | 0 <= i < |xs| && keep(xs[i]) ensures i in idx0 {
      assert init[i] == xs[i];
    }
  }

  /** Two elements contribute one after the other. */
  lemma GatherTwo<T, U>(x: T, y: T, f: T -> seq<U>)
    ensures Gather([x, y], f) == f(x) + f(y)
  {
    assert [x, y][..1] == [x];
    assert [x][..0] == [];
    assert Gather([x], f) == f(x);
  }

  /** Whatever an element contributes is gathered. */
  lemma GatherContains<T, U>(xs: seq<T>, f: T -> seq<U>)
    ensures forall i, v :: 0 <= i < |xs| && v in f(xs[i]) ==> v in Gather(xs, f)
  {
    forall i, v | 0 <= i < |xs| && v in f(xs[i]) ensures v in Gather(xs, f) {
      assert xs == xs[..i] + [xs[i]] + xs[i + 1..];
      GatherAppend(xs[..i] + [xs[i]], xs[i + 1..], f);
      GatherAppend(xs[..i], [xs[i]], f);
      assert [xs[i]][..0] == [];
      assert Gather([xs[i]], f) == f(xs[i]);
    }
  }

  /** De-duplication keeps exactly the elements. */
  lemma DedupMembers<T>(s: seq<T>)
    ensures forall x :: x in Dedup(s) <==> x in s
  {
    forall x | x in s ensures x in Dedup(s) {
      var i :| 0 <= i < |s| && s[i] == x;
    }
  }
}

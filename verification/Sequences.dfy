/** Filtering and subsequences. */
module Sequences {

  /** The elements of `s` that satisfy `keep`, in order. */
  function Keep<T>(keep: T -> bool, s: seq<T>): (r: seq<T>)
    ensures |r| <= |s|
  {
    if s == [] then []
    else
      var init := Keep(keep, s[..|s| - 1]);
      if keep(s[|s| - 1]) then init + [s[|s| - 1]] else init
  }

  lemma {:induction false} KeepConcat<T>(keep: T -> bool, a: seq<T>, b: seq<T>)
    ensures Keep(keep, a + b) == Keep(keep, a) + Keep(keep, b)
  {
    if b == [] {
      assert a + b == a;
    } else {
      var init := b[..|b| - 1];
      assert (a + b)[..|a + b| - 1] == a + init;
      KeepConcat(keep, a, init);
    }
  }

  lemma KeepAppend<T>(keep: T -> bool, a: seq<T>, x: T)
    ensures Keep(keep, a + [x]) == if keep(x) then Keep(keep, a) + [x] else Keep(keep, a)
  {
    assert (a + [x])[..|a|] == a;
  }

  lemma {:induction false} KeepAll<T>(keep: T -> bool, s: seq<T>)
    requires forall i :: 0 <= i < |s| ==> keep(s[i])
    ensures Keep(keep, s) == s
  {
    if s != [] {
      KeepAll(keep, s[..|s| - 1]);
      assert s == s[..|s| - 1] + [s[|s| - 1]];
    }
  }

  lemma {:induction false} KeepNone<T>(keep: T -> bool, s: seq<T>)
    requires forall i :: 0 <= i < |s| ==> !keep(s[i])
    ensures Keep(keep, s) == []
  {
    if s != [] {
      KeepNone(keep, s[..|s| - 1]);
    }
  }

  lemma {:induction false} KeepMembers<T>(keep: T -> bool, s: seq<T>)
    ensures forall x :: x in Keep(keep, s) <==> x in s && keep(x)
  {
    if s != [] {
      KeepMembers(keep, s[..|s| - 1]);
      assert s == s[..|s| - 1] + [s[|s| - 1]];
    }
  }

  /** `idx` names, in order, the places of `b` that `a` is made of. */
  ghost predicate Embeds<T>(a: seq<T>, b: seq<T>, idx: seq<int>) {
    && |idx| == |a|
    && (forall k :: 0 <= k < |idx| ==> 0 <= idx[k] < |b| && a[k] == b[idx[k]])
    && (forall j, k :: 0 <= j < k < |idx| ==> idx[j] < idx[k])
  }

  ghost predicate IsSubsequence<T>(a: seq<T>, b: seq<T>) {
    exists idx :: Embeds(a, b, idx)
  }

  lemma SubsequenceReflexive<T>(a: seq<T>)
    ensures IsSubsequence(a, a)
  {
    assert Embeds(a, a, seq(|a|, i => i));
  }

  lemma SubsequenceTransitive<T>(a: seq<T>, b: seq<T>, c: seq<T>)
    requires IsSubsequence(a, b) && IsSubsequence(b, c)
    ensures IsSubsequence(a, c)
  {
    var f :| Embeds(a, b, f);
    var g :| Embeds(b, c, g);
    var h := seq(|a|, i requires 0 <= i < |a| => g[f[i]]);
    assert Embeds(a, c, h);
  }

  lemma SubsequenceConcat<T>(a: seq<T>, b: seq<T>, c: seq<T>, d: seq<T>)
    requires IsSubsequence(a, b) && IsSubsequence(c, d)
    ensures IsSubsequence(a + c, b + d)
  {
    var f :| Embeds(a, b, f);
    var g :| Embeds(c, d, g);
    var h := f + seq(|g|, i requires 0 <= i < |g| => |b| + g[i]);
    assert Embeds(a + c, b + d, h);
  }

  lemma EmptySubsequence<T>(b: seq<T>)
    ensures IsSubsequence([], b)
  {
    assert Embeds([], b, []);
  }

  lemma {:induction false} KeepIsSubsequence<T>(keep: T -> bool, s: seq<T>)
    ensures IsSubsequence(Keep(keep, s), s)
  {
    if s == [] {
      EmptySubsequence<T>([]);
    } else {
      var init, last := s[..|s| - 1], s[|s| - 1];
      KeepIsSubsequence(keep, init);
      assert s == init + [last];
      if keep(last) {
        SubsequenceReflexive([last]);
        SubsequenceConcat(Keep(keep, init), init, [last], [last]);
      } else {
        EmptySubsequence([last]);
        SubsequenceConcat(Keep(keep, init), init, [], [last]);
        assert Keep(keep, init) + [] == Keep(keep, init);
      }
    }
  }

  /** Without its last element `b` still holds `a`, or, if that element was taken, all of `a` but the last. */
  lemma LastTaken<T>(a: seq<T>, b: seq<T>) returns (taken: bool)
    requires IsSubsequence(a, b) && b != []
    ensures var m, n := |a| - 1, |b| - 1;
            if taken then a != [] && a[m] == b[n] && IsSubsequence(a[..m], b[..n]) else IsSubsequence(a, b[..n])
  {
    var idx :| Embeds(a, b, idx);
    var m, n := |a| - 1, |b| - 1;
    taken := a != [] && idx[m] == n;
    if a != [] {
      assert 0 <= idx[m] < |b| && forall k :: 0 <= k < m ==> idx[k] < idx[m];
    }
    if taken {
      assert Embeds(a[..m], b[..n], idx[..m]);
    } else {
      assert Embeds(a, b[..n], idx);
    }
  }

  lemma SubsequenceIsShorter<T>(a: seq<T>, b: seq<T>)
    requires IsSubsequence(a, b)
    ensures |a| <= |b|
  {
    var idx :| Embeds(a, b, idx);
    if a != [] {
      var k := 0;
      while k < |a| - 1
        invariant 0 <= k < |a| && k <= idx[k]
      {
        k := k + 1;
      }
    }
  }

  /** Filtering both sides keeps a subsequence one. */
  lemma {:induction false} KeepOfSubsequence<T>(keep: T -> bool, a: seq<T>, b: seq<T>)
    requires IsSubsequence(a, b)
    ensures IsSubsequence(Keep(keep, a), Keep(keep, b))
    decreases |b|
  {
    if b == [] {
      SubsequenceIsShorter(a, b);
    } else {
      var m, n := |a| - 1, |b| - 1;
      var taken := LastTaken(a, b);
      var rest := if taken then a[..m] else a;
      KeepOfSubsequence(keep, rest, b[..n]);
      if !keep(b[n]) {
        assert Keep(keep, a) == Keep(keep, rest);
      } else if taken {
        SubsequenceReflexive([b[n]]);
        SubsequenceConcat(Keep(keep, rest), Keep(keep, b[..n]), [b[n]], [b[n]]);
      } else {
        EmptySubsequence([b[n]]);
        SubsequenceConcat(Keep(keep, a), Keep(keep, b[..n]), [], [b[n]]);
        assert Keep(keep, a) + [] == Keep(keep, a);
      }
    }
  }

  function Mapped<T, U>(f: T -> U, s: seq<T>): (r: seq<U>)
    ensures |r| == |s|
  {
    seq(|s|, i requires 0 <= i < |s| => f(s[i]))
  }

  lemma MappedAlike<T, U>(f: T -> U, a: seq<T>, b: seq<T>)
    requires |a| == |b| && forall i :: 0 <= i < |a| ==> f(a[i]) == f(b[i])
    ensures Mapped(f, a) == Mapped(f, b)
  {
  }

  lemma MappedThree<T, U>(f: T -> U, a: T, b: T, c: T)
    ensures Mapped(f, [a, b, c]) == [f(a), f(b), f(c)] && Mapped(f, [a, c]) == [f(a), f(c)]
  {
  }

  function RemoveAt<T>(s: seq<T>, k: nat): (r: seq<T>)
    requires k < |s|
    ensures |r| == |s| - 1
  {
    s[..k] + s[k + 1..]
  }

  lemma RemoveIsSubsequence<T>(s: seq<T>, k: nat)
    requires k < |s|
    ensures IsSubsequence(RemoveAt(s, k), s)
  {
    assert Embeds(RemoveAt(s, k), s, seq(|s| - 1, i => if i < k then i else i + 1));
  }

  lemma RemoveAtOfAppend<T>(s: seq<T>, x: T, k: nat)
    requires k <= |s|
    ensures RemoveAt(s + [x], k) == if k < |s| then s[..k] + s[k + 1..] + [x] else s
  {
  }

  lemma RemoveAtMultiset<T>(s: seq<T>, k: nat)
    requires k < |s|
    ensures multiset(s) == multiset(RemoveAt(s, k)) + multiset{s[k]}
  {
    assert s == s[..k] + [s[k]] + s[k + 1..];
  }

  /** Removing an element from a filtered view: it matters only if the element is kept. */
  lemma KeepRemoveAt<T>(keep: T -> bool, s: seq<T>, k: nat)
    requires k < |s|
    ensures !keep(s[k]) ==> Keep(keep, RemoveAt(s, k)) == Keep(keep, s)
    ensures keep(s[k]) ==> |Keep(keep, RemoveAt(s, k))| == |Keep(keep, s)| - 1
  {
    assert s == s[..k] + [s[k]] + s[k + 1..];
    KeepAppend(keep, s[..k], s[k]);
    KeepConcat(keep, s[..k] + [s[k]], s[k + 1..]);
    KeepConcat(keep, s[..k], s[k + 1..]);
  }

  /** Place of the last element that satisfies `p`, -1 when there is none. */
  function LastIndex<T>(p: T -> bool, s: seq<T>): (k: int)
    ensures -1 <= k < |s|
    ensures k >= 0 ==> p(s[k])
  {
    var n := |s| - 1;
    if s == [] then -1 else if p(s[n]) then n else LastIndex(p, s[..n])
  }

  lemma LastIndexAppend<T>(p: T -> bool, s: seq<T>, x: T)
    ensures LastIndex(p, s + [x]) == if p(x) then |s| else LastIndex(p, s)
  {
    assert (s + [x])[..|s|] == s;
  }

  lemma {:induction false} LastIndexIsLast<T>(p: T -> bool, s: seq<T>)
    ensures forall j :: LastIndex(p, s) < j < |s| ==> !p(s[j])
  {
    var n := |s| - 1;
    if s != [] && !p(s[n]) {
      LastIndexIsLast(p, s[..n]);
      assert forall j :: 0 <= j < n ==> s[..n][j] == s[j];
    }
  }

  /** A machine run: the inputs taken one by one, from the first to the last. */
  function Fold<S, I>(step: (S, I) -> S, s: S, inputs: seq<I>): S {
    if inputs == [] then s
    else step(Fold(step, s, inputs[..|inputs| - 1]), inputs[|inputs| - 1])
  }

  lemma FoldNext<S, I>(step: (S, I) -> S, s: S, inputs: seq<I>, i: nat)
    requires i < |inputs|
    ensures Fold(step, s, inputs[..i + 1]) == step(Fold(step, s, inputs[..i]), inputs[i])
  {
    assert inputs[..i + 1][..i] == inputs[..i];
  }

  lemma FoldAppend<S, I>(step: (S, I) -> S, s: S, inputs: seq<I>, x: I)
    ensures Fold(step, s, inputs + [x]) == step(Fold(step, s, inputs), x)
  {
    assert (inputs + [x])[..|inputs|] == inputs;
  }

  lemma {:induction false} FoldConcat<S, I>(step: (S, I) -> S, s: S, a: seq<I>, b: seq<I>)
    ensures Fold(step, s, a + b) == Fold(step, Fold(step, s, a), b)
  {
    if b == [] {
      assert a + b == a;
    } else {
      var init, last := b[..|b| - 1], b[|b| - 1];
      FoldConcat(step, s, a, init);
      assert a + b == (a + init) + [last];
      FoldAppend(step, s, a + init, last);
    }
  }

  /** A state that every input leaves alone is final. */
  lemma {:induction false} FoldStays<S, I(!new)>(step: (S, I) -> S, s: S, inputs: seq<I>, i: nat)
    requires i <= |inputs|
    requires forall x :: step(Fold(step, s, inputs[..i]), x) == Fold(step, s, inputs[..i])
    ensures Fold(step, s, inputs) == Fold(step, s, inputs[..i])
    decreases |inputs| - i
  {
    if i == |inputs| {
      assert inputs[..i] == inputs;
    } else {
      FoldNext(step, s, inputs, i);
      FoldStays(step, s, inputs, i + 1);
    }
  }
}

/**
 Deterministic projection (kernel/project.py): the fold over an explicit linearization, and
 the one linearization that decision cuts allow.
 */
module Projection {
  import opened Canon
  import opened Types
  import opened Ledgers
  import opened History
  import opened Ancestry

  function Fold<S>(acts: seq<Act>, initial: S, apply: (S, Act) -> S): S {
    if acts == [] then initial
    else apply(Fold(acts[..|acts| - 1], initial, apply), acts[|acts| - 1])
  }

  method Project<S>(acts: seq<Act>, initial: S, apply: (S, Act) -> S) returns (state: S)
    ensures state == Fold(acts, initial, apply)
  {
    state := initial;
    for i := 0 to |acts|
      invariant state == Fold(acts[..i], initial, apply)
    {
      state := apply(state, acts[i]);
      assert acts[..i + 1][..i] == acts[..i];
    }
    assert acts[..|acts|] == acts;
  }

  /** A projection may be resumed from a materialized state. */
  lemma {:induction false} FoldResumes<S>(earlier: seq<Act>, later: seq<Act>, initial: S, apply: (S, Act) -> S)
    ensures Fold(earlier + later, initial, apply) == Fold(later, Fold(earlier, initial, apply), apply)
  {
    if later == [] {
      assert earlier + later == earlier;
    } else {
      var init := later[..|later| - 1];
      FoldResumes(earlier, init, initial, apply);
      assert (earlier + later)[..|earlier + later| - 1] == earlier + init;
    }
  }

  /** The Acts placed after the first n, in commit order. */
  function PlacedActs(s: Ledger, n: nat): seq<Act>
    requires WellFormed(s) && n <= |s.order|
  {
    seq(|s.order| - n, i requires 0 <= i < |s.order| - n => At(s, n + i))
  }

  predicate SortedByCut(acts: seq<Act>) {
    forall i, j | 0 <= i < j < |acts| :: |acts[i].decisionCut| <= |acts[j].decisionCut|
  }

  lemma LargestLast<T>(xs: seq<T>, listing: seq<T>, size: T -> int, n: nat)
    requires forall i | 0 <= i < |xs| :: size(xs[i]) == n + i
    requires multiset(listing) == multiset(xs) && xs != []
    requires forall i, j | 0 <= i < j < |listing| :: size(listing[i]) <= size(listing[j])
    ensures |listing| == |xs| && listing[|listing| - 1] == xs[|xs| - 1]
  {
    assert |listing| == |multiset(listing)| && |xs| == |multiset(xs)|;
    var k := |xs| - 1;
    assert xs[k] in multiset(listing);
    var j :| 0 <= j < |listing| && listing[j] == xs[k];
    assert listing[k] in multiset(xs);
    var m :| 0 <= m < |xs| && xs[m] == listing[k];
    assert size(listing[j]) <= size(listing[k]);
  }

  function DropLast<T>(xs: seq<T>): (init: seq<T>)
    requires xs != []
    ensures |init| == |xs| - 1 && forall i | 0 <= i < |init| :: init[i] == xs[i]
  {
    xs[..|xs| - 1]
  }

  lemma MultisetOfInit<T>(xs: seq<T>)
    requires xs != []
    ensures multiset(DropLast(xs)) == multiset(xs) - multiset{xs[|xs| - 1]}
  {
    assert xs == DropLast(xs) + [xs[|xs| - 1]];
  }

  /** Where the sizes of a sequence count up one by one, no other listing of it is sorted by size. */
  lemma {:induction false} SizesDetermineOrder<T>(xs: seq<T>, listing: seq<T>, size: T -> int, n: nat)
    requires forall i | 0 <= i < |xs| :: size(xs[i]) == n + i
    requires multiset(listing) == multiset(xs)
    requires forall i, j | 0 <= i < j < |listing| :: size(listing[i]) <= size(listing[j])
    ensures listing == xs
  {
    if xs == [] {
      assert |listing| == |multiset(listing)|;
    } else {
      LargestLast(xs, listing, size, n);
      var a, b := DropLast(xs), DropLast(listing);
      assert multiset(b) == multiset(a) by {
        MultisetOfInit(xs);
        MultisetOfInit(listing);
      }
      SizesDetermineOrder(a, b, size, n);
    }
  }

  /** Any listing of the placed Acts in which cuts do not shrink is the commit order itself. */
  lemma CutsDetermineOrder(acts: seq<Act>, listing: seq<Act>, n: nat)
    requires forall i | 0 <= i < |acts| :: |acts[i].decisionCut| == n + i
    requires multiset(listing) == multiset(acts) && SortedByCut(listing)
    ensures listing == acts
  {
    SizesDetermineOrder(acts, listing, (a: Act) => |a.decisionCut|, n);
  }

  lemma PlacedCutSizes(s: Ledger, n: nat, i: nat)
    requires Lawful(s, n) && i < |s.order| - n
    ensures |PlacedActs(s, n)[i].decisionCut| == n + i
  {
    hide Justified;
    var before, a := s.order[..n + i], s.acts[s.order[n + i]];
    assert PlacedActs(s, n)[i] == At(s, n + i) == a;
    assert Justified(s.objects, s.acts, before, a);
    JustifiedCut(s.objects, s.acts, before, a);
    assert Distinct(before);
    DistinctCardinality(before);
  }

  lemma JustifiedCut(objects: map<Text, Record>, acts: map<Text, Act>, before: seq<Text>, a: Act)
    requires Justified(objects, acts, before, a)
    ensures a.decisionCut == ToSet(before)
  {
  }

  /** Over every run, sorting the unordered placed Acts by the size of their cuts gives back the
      commit order, and so every projector folds them to the same state. */
  lemma ProjectionReproducible<S>(ed: Verifier, s0: Ledger, steps: seq<Step>, listing: seq<Act>,
                                  initial: S, apply: (S, Act) -> S)
    requires WellFormed(s0)
    ensures var s, n := Execute(ed, s0, steps), |s0.order|;
            && WellFormed(s) && n <= |s.order|
            && (multiset(listing) == multiset(PlacedActs(s, n)) && SortedByCut(listing) ==>
                  && listing == PlacedActs(s, n)
                  && Fold(listing, initial, apply) == Fold(PlacedActs(s, n), initial, apply))
  {
    RunLawful(ed, s0, steps, |s0.order|);
    var s, n := Execute(ed, s0, steps), |s0.order|;
    var placed := PlacedActs(s, n);
    forall i | 0 <= i < |placed| ensures |placed[i].decisionCut| == n + i {
      PlacedCutSizes(s, n, i);
    }
    if multiset(listing) == multiset(placed) && SortedByCut(listing) {
      CutsDetermineOrder(placed, listing, n);
    }
  }
}

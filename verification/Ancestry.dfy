/**
 The shape of history over every run: nested cuts, acyclic ancestry, closed cuts, and the
 commit order read back from the cuts alone (kernel/memory.py, ledger/memory.py, kernel/project.py).
 */
module Ancestry {
  import opened Canon
  import opened Types
  import opened Ledgers
  import opened History

  function At(s: Ledger, i: nat): Act
    requires WellFormed(s) && i < |s.order|
  {
    assert s.order[i] in ToSet(s.order);
    s.acts[s.order[i]]
  }

  lemma PrefixSets(order: seq<Text>, i: nat, j: nat)
    requires Distinct(order) && i < j <= |order|
    ensures ToSet(order[..i]) < ToSet(order[..j])
    ensures order[i] in ToSet(order[..j]) && order[i] !in ToSet(order[..i])
    ensures |ToSet(order[..i])| == i
  {
    assert order[i] == order[..j][i];
    forall h | h in order[..i] ensures h in order[..j] && h != order[i] {
      var k :| 0 <= k < i && order[..i][k] == h;
      assert order[..j][k] == h;
    }
    assert order[i] in ToSet(order[..j]) && order[i] !in ToSet(order[..i]);
    assert ToSet(order[..i]) <= ToSet(order[..j]);
    DistinctCardinality(order[..i]);
  }

  /** Over every run: the cut of a placed Act is exactly the history before it, has as many
      members as its position, misses the Act itself, and lies strictly inside every later cut. */
  lemma LinearHistory(ed: Verifier, s0: Ledger, steps: seq<Step>, i: nat)
    requires WellFormed(s0)
    ensures var s := Execute(ed, s0, steps);
            && WellFormed(s) && s0.order <= s.order
            && (|s0.order| <= i < |s.order| ==>
                  && At(s, i).decisionCut == ToSet(s.order[..i])
                  && |At(s, i).decisionCut| == i
                  && s.order[i] !in At(s, i).decisionCut
                  && forall j | i < j < |s.order| ::
                       At(s, i).decisionCut < At(s, j).decisionCut && s.order[i] in At(s, j).decisionCut)
  {
    RunLawful(ed, s0, steps, |s0.order|);
    var s := Execute(ed, s0, steps);
    if |s0.order| <= i < |s.order| {
      PrefixSets(s.order, i, i + 1);
      forall j | i < j < |s.order|
        ensures At(s, i).decisionCut < At(s, j).decisionCut && s.order[i] in At(s, j).decisionCut
      {
        PrefixSets(s.order, i, j);
      }
    }
  }

  // --- ancestry ---

  /** Every Act comes after its parents. */
  predicate Ancestral(s: Ledger) {
    forall i, p | 0 <= i < |s.order| && s.order[i] in s.acts && p in s.acts[s.order[i]].parents :: p in s.order[..i]
  }

  lemma RunAncestral(ed: Verifier, s0: Ledger, steps: seq<Step>)
    requires WellFormed(s0) && Ancestral(s0)
    ensures Ancestral(Execute(ed, s0, steps))
  {
    RunLawful(ed, s0, steps, |s0.order|);
    var s := Execute(ed, s0, steps);
    forall i, p | 0 <= i < |s.order| && s.order[i] in s.acts && p in s.acts[s.order[i]].parents
      ensures p in s.order[..i]
    {
      if i < |s0.order| {
        assert s.order[i] == s0.order[i] && s.order[..i] == s0.order[..i];
        assert s0.order[i] in ToSet(s0.order);
      } else {
        assert AtItsCut(s.order[..i], s.acts[s.order[i]]);
      }
    }
  }

  /** A chain of Acts, each a parent of the one before it. */
  predicate IsLineage(s: Ledger, path: seq<Text>) {
    && path != []
    && forall k | 0 <= k < |path| - 1 :: path[k] in s.acts && path[k + 1] in s.acts[path[k]].parents
  }

  lemma {:induction false} LineageDescends(s: Ledger, path: seq<Text>, i: nat) returns (j: nat)
    requires WellFormed(s) && Ancestral(s) && IsLineage(s, path)
    requires i < |s.order| && s.order[i] == path[0]
    ensures j + |path| <= i + 1 && s.order[j] == path[|path| - 1]
    decreases |path|
  {
    if |path| == 1 {
      j := i;
    } else {
      assert path[1] in s.acts[path[0]].parents;
      var k :| 0 <= k < i && s.order[..i][k] == path[1];
      forall m | 0 <= m < |path[1..]| - 1
        ensures path[1..][m] in s.acts && path[1..][m + 1] in s.acts[path[1..][m]].parents
      {
        assert path[1..][m] == path[m + 1] && path[1..][m + 1] == path[m + 2];
        assert path[m + 1] in s.acts && path[m + 1 + 1] in s.acts[path[m + 1]].parents;
      }
      j := LineageDescends(s, path[1..], k);
    }
  }

  /** Over every run, no Act is among its own ancestors. */
  lemma AcyclicAncestry(ed: Verifier, s0: Ledger, steps: seq<Step>, path: seq<Text>)
    requires WellFormed(s0) && Ancestral(s0)
    requires |path| >= 2 && IsLineage(Execute(ed, s0, steps), path)
    ensures path[0] != path[|path| - 1]
  {
    RunLawful(ed, s0, steps, |s0.order|);
    RunAncestral(ed, s0, steps);
    var s := Execute(ed, s0, steps);
    assert path[0] in ToSet(s.order);
    var i :| 0 <= i < |s.order| && s.order[i] == path[0];
    var j := LineageDescends(s, path, i);
  }

  // --- closed cuts ---

  /** Known, and closed under every line of descent back to its ancestors. */
  ghost predicate ClosedUnderAncestry(s: Ledger, cut: set<Text>) {
    && cut <= s.acts.Keys
    && forall path | IsLineage(s, path) && path[0] in cut :: path[|path| - 1] in cut
  }

  lemma {:induction false} LineageStaysInside(s: Ledger, cut: set<Text>, path: seq<Text>)
    requires IsClosedCut(s, cut) && IsLineage(s, path) && path[0] in cut
    ensures path[|path| - 1] in cut
  {
    if |path| > 1 {
      var init := path[..|path| - 1];
      LineageStaysInside(s, cut, init);
      var k := |path| - 2;
      assert path[k + 1] in s.acts[path[k]].parents;
      assert path[k + 1] in ToSet(s.acts[path[k]].parents);
    }
  }

  /** The one-step parent check is the transitive one. */
  lemma ClosedCutIsTransitive(s: Ledger, cut: set<Text>)
    ensures IsClosedCut(s, cut) <==> ClosedUnderAncestry(s, cut)
  {
    if IsClosedCut(s, cut) {
      forall path | IsLineage(s, path) && path[0] in cut ensures path[|path| - 1] in cut {
        LineageStaysInside(s, cut, path);
      }
    }
    if ClosedUnderAncestry(s, cut) {
      forall h, p | h in cut && p in s.acts[h].parents ensures p in cut {
        assert IsLineage(s, [h, p]);
        assert [h, p][0] == h && [h, p][|[h, p]| - 1] == p;
      }
    }
  }

  lemma ClosedCutLasts(s: Ledger, t: Ledger, cut: set<Text>)
    requires Extends(s, t) && IsClosedCut(s, cut)
    ensures IsClosedCut(t, cut)
  {
    forall h | h in cut ensures h in t.acts && ToSet(t.acts[h].parents) <= cut {
      assert h in s.acts && t.acts[h] == s.acts[h];
    }
  }

  lemma PrefixClosed(s: Ledger, i: nat)
    requires WellFormed(s) && Ancestral(s) && i <= |s.order|
    ensures IsClosedCut(s, ToSet(s.order[..i]))
  {
    forall h | h in s.order[..i] ensures h in s.acts && ToSet(s.acts[h].parents) <= ToSet(s.order[..i]) {
      assert h in ToSet(s.order);
      var k :| 0 <= k < i && s.order[..i][k] == h;
      assert s.order[k] == h;
      forall p | p in s.acts[h].parents ensures p in s.order[..i] {
        assert p in s.order[..k];
        var m :| 0 <= m < k && s.order[..k][m] == p;
        assert s.order[..i][m] == p;
      }
    }
  }

  /** Over every run, the whole history and the decision cut of every placed Act are closed,
      and a cut once closed is closed in every later state. */
  lemma RunCutsClosed(ed: Verifier, s0: Ledger, steps: seq<Step>, i: nat, cut: set<Text>)
    requires WellFormed(s0) && Ancestral(s0)
    ensures var s := Execute(ed, s0, steps);
            && WellFormed(s)
            && IsClosedCut(s, HistoryCut(s))
            && (|s0.order| <= i < |s.order| ==> IsClosedCut(s, At(s, i).decisionCut))
            && (IsClosedCut(s0, cut) ==> IsClosedCut(s, cut))
  {
    RunLawful(ed, s0, steps, |s0.order|);
    RunAncestral(ed, s0, steps);
    var s := Execute(ed, s0, steps);
    assert s.order[..|s.order|] == s.order;
    PrefixClosed(s, |s.order|);
    if |s0.order| <= i < |s.order| {
      PrefixClosed(s, i);
    }
    if IsClosedCut(s0, cut) {
      ClosedCutLasts(s0, s, cut);
    }
  }
}

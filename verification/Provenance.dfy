/**
 Where the Acts of history come from: every Act placed, by a sequential run or by interleaved workers, is
 the Act of a submission made in that run, signed by the key of the Identity its Command names
 (kernel/commit.py).
 */
module Provenance {
  import opened Canon
  import opened Types
  import opened Ledgers
  import opened Gate
  import opened History
  import opened Acceptance
  import opened Postgres
  import opened Workers
  import opened Concurrency

  /** Whatever the gate returns, it returns for a signature that is valid for the Command, under the key of
      the Command's own Identity; without one it changes nothing. */
  lemma OnlySignedIsHeard(ed: Verifier, s: Ledger, q: Submission)
    ensures Commit(ed, s, q).1.Ok? ==>
              && q.identity.hash == q.command.identityHash
              && ed(q.identity.publicKey, q.command.signature, SigningValue(q.command))
    ensures !ed(q.identity.publicKey, q.command.signature, SigningValue(q.command)) ==>
              Commit(ed, s, q) ==
                (s, Err(if q.identity.hash == q.command.identityHash then InvalidSignature else IdentityMismatch))
  {
    hide Refusal, Place, SigningValue, ActHash;
  }

  /** Step k of the run submits this Act, signed and with every condition of the gate met, to a ledger that
      did not hold it. */
  ghost predicate SubmittedAt(ed: Verifier, s0: Ledger, steps: seq<Step>, k: nat, act: Act) {
    && k < |steps| && steps[k].Submit?
    && var (s, q) := (Execute(ed, s0, steps[..k]), steps[k].q);
    && act == ActOf(q) && act.hash !in s.acts
    && q.identity.hash == q.command.identityHash
    && ed(q.identity.publicKey, q.command.signature, SigningValue(q.command))
    && forall e: CommitError :: Meets(ed, s, q, e)
  }

  lemma EarlierSubmitted(ed: Verifier, s0: Ledger, steps: seq<Step>, k: nat, act: Act)
    requires steps != [] && SubmittedAt(ed, s0, steps[..|steps| - 1], k, act)
    ensures SubmittedAt(ed, s0, steps, k, act)
  {
    hide Meets, ActOf, SigningValue;
    assert steps[..|steps| - 1][..k] == steps[..k];
  }

  lemma PlacedNow(ed: Verifier, s: Ledger, q: Submission, h: Text)
    requires WellFormed(s) && h !in s.acts && h in Commit(ed, s, q).0.acts
    ensures Commit(ed, s, q).1.Ok? && h == ActHash(q) == ActOf(q).hash && Commit(ed, s, q).0.acts[h] == ActOf(q)
    ensures q.identity.hash == q.command.identityHash
    ensures ed(q.identity.publicKey, q.command.signature, SigningValue(q.command))
    ensures forall e: CommitError :: Meets(ed, s, q, e)
  {
    hide Commit, Meets, CanonicalValue, SigningValue, Justified;
    CommitEffect(ed, s, q);
    OnlySignedIsHeard(ed, s, q);
    GateAnswers(ed, s, q);
  }

  /** Over every run, every Act that was not there before it comes from a signed submission of that run. */
  lemma {:induction false} PlacedWasSubmitted(ed: Verifier, s0: Ledger, steps: seq<Step>, h: Text) returns (k: nat)
    requires WellFormed(s0) && h !in s0.acts && h in Execute(ed, s0, steps).acts
    ensures SubmittedAt(ed, s0, steps, k, Execute(ed, s0, steps).acts[h])
  {
    hide Commit, ActOf, SigningValue, Meets, SubmittedAt;
    var init, step := steps[..|steps| - 1], steps[|steps| - 1];
    var s := Execute(ed, s0, init);
    RunLawful(ed, s0, init, |s0.order|);
    if h in s.acts {
      k := PlacedWasSubmitted(ed, s0, init, h);
      StepLawful(ed, s, step, |s0.order|);
      EarlierSubmitted(ed, s0, steps, k, s.acts[h]);
    } else {
      k := |steps| - 1;
      PlacedBySubmit(ed, s, step, h);
      SubmittedLast(ed, s0, steps, h);
    }
  }

  lemma PlacedBySubmit(ed: Verifier, s: Ledger, step: Step, h: Text)
    requires h !in s.acts && h in Apply(ed, s, step).acts
    ensures step.Submit?
  {
  }

  lemma SubmittedLast(ed: Verifier, s0: Ledger, steps: seq<Step>, h: Text)
    requires steps != [] && steps[|steps| - 1].Submit?
    requires var s := Execute(ed, s0, steps[..|steps| - 1]); WellFormed(s) && h !in s.acts
    requires h in Execute(ed, s0, steps).acts
    ensures SubmittedAt(ed, s0, steps, |steps| - 1, Execute(ed, s0, steps).acts[h])
  {
    hide Commit, ActOf, SigningValue, Meets;
    PlacedNow(ed, Execute(ed, s0, steps[..|steps| - 1]), steps[|steps| - 1].q, h);
  }

  // --- among concurrent workers ---

  /** Event j of an interleaved run begins the commit of this Act's submission, signed; event k is that
      worker's RPC, and it found every condition of the gate met and the Act not there. */
  ghost predicate StartedAt(ed: Verifier, xs: seq<System>, es: seq<Event>, j: nat, k: nat, act: Act) {
    && |xs| == |es| + 1 && j < k < |es| && es[j].Start? && es[k].Call? && es[k].i == |xs[j].workers|
    && var q := es[j].q;
    && act == ActOf(q) && act.hash !in xs[k].db.acts
    && q.identity.hash == q.command.identityHash
    && ed(q.identity.publicKey, q.command.signature, SigningValue(q.command))
    && forall e: CommitError :: Meets(ed, xs[k].db, q, e)
  }

  /** Every worker at work was begun by an event of the run, and works on the submission it began with. */
  lemma {:induction false} WorkerWasStarted(ed: Verifier, d: Discipline, xs: seq<System>, es: seq<Event>, k: nat,
                                            i: nat) returns (j: nat)
    requires IsRun(ed, d, xs, es) && k <= |es| && i < |xs[k].workers|
    ensures j < k && es[j].Start? && |xs[j].workers| == i && es[j].q == xs[k].workers[i].q
  {
    hide WriteStep, ReadStep, CommitActRpc, RpcArgsOf;
    assert Moves(ed, d, xs[k - 1], es[k - 1], xs[k]);
    if i < |xs[k - 1].workers| {
      j := WorkerWasStarted(ed, d, xs, es, k - 1, i);
    } else {
      j := k - 1;
    }
  }

  /** One event that adds an Act to the database is an accepted RPC, and the commit of its worker. */
  lemma AddedByCall(ed: Verifier, d: Discipline, xs: seq<System>, es: seq<Event>, k: nat, h: Text)
    requires IsSafe(d) && IsRun(ed, d, xs, es) && WellFormed(xs[0].db) && k < |es|
    requires h !in xs[k].db.acts && h in xs[k + 1].db.acts
    ensures es[k].Call? && es[k].i < |xs[k].workers| && WellFormed(xs[k].db)
    ensures Commit(ed, xs[k].db, xs[k].workers[es[k].i].q).0 == xs[k + 1].db
  {
    hide CommitActRpc, Commit, Cleared, SteadyCleared, ReadStep, RpcArgsOf;
    RunSound(ed, d, xs, es, k);
    var x, e := xs[k], es[k];
    assert Moves(ed, d, x, e, xs[k + 1]);
    if e.Call? {
      var a := RpcArgsOf(x.workers[e.i].q, e.cut, e.registryCut);
      CallSound(ed, x.db, x.workers[e.i], e.cut, e.registryCut);
      assert xs[k + 1].db == CommitActRpc(x.db, a).0;
      assert CommitActRpc(x.db, a).1.Ok?;
    }
  }

  /** Over every interleaved run, every Act that was not there before it comes from a signed submission
      that a worker of the run began with. */
  lemma {:induction false} PlacedWasStarted(ed: Verifier, d: Discipline, xs: seq<System>, es: seq<Event>, n: nat,
                                            h: Text) returns (j: nat, k: nat)
    requires IsSafe(d) && IsRun(ed, d, xs, es) && WellFormed(xs[0].db) && n <= |es|
    requires h !in xs[0].db.acts && h in xs[n].db.acts
    ensures k < n && StartedAt(ed, xs, es, j, k, xs[n].db.acts[h])
  {
    hide Commit, ActOf, SigningValue, Meets, StartedAt, Moves, IsSafe;
    if h in xs[n - 1].db.acts {
      j, k := PlacedWasStarted(ed, d, xs, es, n - 1, h);
      RunGrows(ed, d, xs, es, n - 1, n);
    } else {
      k := n - 1;
      AddedByCall(ed, d, xs, es, k, h);
      j := WorkerWasStarted(ed, d, xs, es, k, es[k].i);
      PlacedNow(ed, xs[k].db, es[j].q, h);
      Begun(ed, d, xs, es, j, k, xs[n].db.acts[h]);
    }
  }

  lemma Begun(ed: Verifier, d: Discipline, xs: seq<System>, es: seq<Event>, j: nat, k: nat, act: Act)
    requires IsRun(ed, d, xs, es) && j < k < |es| && es[j].Start? && es[k].Call? && es[k].i == |xs[j].workers|
    requires act == ActOf(es[j].q) && act.hash !in xs[k].db.acts
    requires es[j].q.identity.hash == es[j].q.command.identityHash
    requires ed(es[j].q.identity.publicKey, es[j].q.command.signature, SigningValue(es[j].q.command))
    requires forall e: CommitError :: Meets(ed, xs[k].db, es[j].q, e)
    ensures StartedAt(ed, xs, es, j, k, act)
  {
    hide ActOf, SigningValue, Meets, Moves;
  }
}

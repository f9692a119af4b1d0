/**
 What workers can be led to do: a lone worker carries out every commit that the gate accepts and the
 RPC does not refuse.
 */
module Schedules {
  import opened Canon
  import opened Types
  import opened Ledgers
  import opened Gate
  import opened History
  import opened Consequence
  import opened Postgres
  import opened Workers
  import opened Concurrency

  // --- runs from one state to another ---

  predicate Connects(ed: Verifier, d: Discipline, xs: seq<System>, es: seq<Event>, x: System, y: System) {
    && |xs| == |es| + 1 && xs[0] == x && xs[|es|] == y
    && forall k | 0 <= k < |es| :: Moves(ed, d, xs[k], es[k], xs[k + 1])
  }

  ghost predicate Reaches(ed: Verifier, d: Discipline, x: System, y: System) {
    exists xs, es :: Connects(ed, d, xs, es, x, y)
  }

  lemma ReachesSelf(ed: Verifier, d: Discipline, x: System)
    ensures Reaches(ed, d, x, x)
  {
    assert Connects(ed, d, [x], [], x, x);
  }

  lemma ReachesBy(ed: Verifier, d: Discipline, x: System, e: Event, y: System)
    requires Moves(ed, d, x, e, y)
    ensures Reaches(ed, d, x, y)
  {
    assert Connects(ed, d, [x, y], [e], x, y);
  }

  lemma ReachesOn(ed: Verifier, d: Discipline, x: System, y: System, z: System)
    requires Reaches(ed, d, x, y) && Reaches(ed, d, y, z)
    ensures Reaches(ed, d, x, z)
  {
    hide Moves;
    var xs, es :| Connects(ed, d, xs, es, x, y);
    var ys, fs :| Connects(ed, d, ys, fs, y, z);
    var zs, gs := xs + ys[1..], es + fs;
    forall k | 0 <= k < |gs| ensures Moves(ed, d, zs[k], gs[k], zs[k + 1]) {
      if k < |es| {
        assert Moves(ed, d, xs[k], es[k], xs[k + 1]);
      } else {
        var m := k - |es|;
        assert Moves(ed, d, ys[m], fs[m], ys[m + 1]);
      }
    }
    assert Connects(ed, d, zs, gs, x, z);
  }

  // --- one worker, undisturbed ---

  predicate Has(x: System, i: nat, q: Submission, pc: Pc) {
    i < |x.workers| && x.workers[i] == Worker(q, pc)
  }

  function WithWorker(x: System, i: nat, w: Worker): System
    requires i < |x.workers|
  {
    System(x.db, x.workers[i := w])
  }

  /** How far a point of the gate is from the end of its reads. */
  function Distance(pc: Pc): nat {
    match pc
    case Lookup => 13
    case PriorConsequence => 12
    case Links(_, _) => 11
    case ReviewTarget => 10
    case ReviewPayloads(_, _) => 10
    case PendingReview(_) => 10
    case CurrentCut => 9
    case CommandType => 8
    case ActType => 7
    case Rules(_) => 6
    case ContextTypes(_) => 5
    case Payload => 4
    case Parents(_) => 3
    case _ => 0
  }

  function Remaining(n: int, next: nat): nat {
    if next <= n then n - next else 0
  }

  /** How much of a loop of reads is left. */
  function Left(q: Submission, pc: Pc): nat {
    match pc
    case Links(_, next) => Remaining(|q.authChain|, next)
    case ReviewPayloads(linked, next) => Remaining(|linked|, next)
    case Rules(next) => Remaining(|q.decision.ruleHashes|, next)
    case ContextTypes(left) => |left|
    case Parents(next) => Remaining(|q.command.parents|, next)
    case _ => 0
  }

  predicate Nearer(q: Submission, pc: Pc, pc': Pc) {
    Distance(pc') < Distance(pc) || (Distance(pc') == Distance(pc) && Left(q, pc') < Left(q, pc))
  }

  /** Up to the cut check, a submission meets nothing to refuse it. */
  predicate Presentable(s: Ledger, q: Submission) {
    && ActHash(q) !in s.acts && q.decision.outcome in PermittedOutcomes(q.actType)
    && (IsLifecycle(q.actType) || !HasConsequence(s, CommandHash(q.command)))
    && ProofFlaw(s, q).None?
  }

  predicate Onward(s: Ledger, q: Submission, pc: Pc, pc': Pc) {
    ReadStep(s, q, pc, pc') && Nearer(q, pc, pc') && !pc'.Done?
  }

  lemma NextOfLinks(s: Ledger, q: Submission, pc: Pc) returns (pc': Pc)
    requires Presentable(s, q) && pc.Links? && Cleared(s, q, pc)
    ensures Onward(s, q, pc, pc') && Stage(pc') <= 3
  {
    hide HasConsequence, CommandHash, ActHash;
    var chain, next := q.authChain, pc.next;
    if next >= |chain| {
      assert chain[..next] == chain;
      pc' := AfterLinks(q, pc.linked);
    } else if chain[next] in s.acts {
      pc' := Links(pc.linked + [s.acts[chain[next]]], next + 1);
    } else {
      pc' := Links(pc.linked, next + 1);
    }
  }

  lemma NextOfReviews(s: Ledger, q: Submission, pc: Pc) returns (pc': Pc)
    requires Presentable(s, q) && pc.ReviewPayloads? && Cleared(s, q, pc)
    ensures Onward(s, q, pc, pc') && Stage(pc') <= 3
  {
    hide HasConsequence, CommandHash, ActHash, ReviewedCommand;
    pc' := if pc.next >= |pc.linked| then CurrentCut else ReviewPayloads(pc.linked, pc.next + 1);
    assert pc.next < |pc.linked| ==> pc.linked[pc.next] in pc.linked;
  }

  lemma NextOfReviewing(s: Ledger, q: Submission, pc: Pc) returns (pc': Pc)
    requires Presentable(s, q) && (pc.ReviewTarget? || pc.PendingReview?) && Cleared(s, q, pc)
    ensures Onward(s, q, pc, pc') && Stage(pc') <= 3
  {
    hide HasConsequence, CommandHash, ActHash, ReviewedCommand;
    pc' := CurrentCut;
  }

  lemma NextOfProof(s: Ledger, q: Submission, pc: Pc) returns (pc': Pc)
    requires Presentable(s, q) && Cleared(s, q, pc) && Stage(pc) <= 2
    ensures Onward(s, q, pc, pc') && Stage(pc') <= 3
  {
    if pc.Links? {
      pc' := NextOfLinks(s, q, pc);
    } else if pc.ReviewPayloads? {
      pc' := NextOfReviews(s, q, pc);
    } else if Stage(pc) < 2 {
      hide HasConsequence, CommandHash, ActHash, ReviewedCommand;
      pc' := if pc.Lookup? && !IsLifecycle(q.actType) then PriorConsequence else ProofStart(q);
    } else {
      pc' := NextOfReviewing(s, q, pc);
    }
  }

  predicate KeysOf(q: Submission, pc: Pc) {
    pc.ContextTypes? ==> pc.left <= q.context.values.Keys
  }

  lemma NextOfRules(s: Ledger, q: Submission, pc: Pc) returns (pc': Pc)
    requires GovernanceFlaw(s, q).None? && (pc.Rules? || pc.Parents?)
    ensures Onward(s, q, pc, pc') && 3 <= Stage(pc') <= 10 && KeysOf(q, pc')
  {
    hide Registered;
    if pc.Rules? {
      var rules := q.decision.ruleHashes;
      pc' := if pc.next >= |rules| then ContextTypes(q.context.values.Keys) else Rules(pc.next + 1);
      assert pc.next < |rules| ==> rules[pc.next] in rules;
    } else {
      var parents := q.command.parents;
      pc' := if pc.next >= |parents| then PutCommand else Parents(pc.next + 1);
      assert pc.next < |parents| ==> parents[pc.next] in parents;
    }
  }

  lemma NextOfKeys(s: Ledger, q: Submission, pc: Pc) returns (pc': Pc)
    requires GovernanceFlaw(s, q).None? && pc.ContextTypes? && KeysOf(q, pc)
    ensures Onward(s, q, pc, pc') && 3 <= Stage(pc') <= 10 && KeysOf(q, pc')
  {
    hide Registered, GovernanceFlaw;
    GovernedTypes(s, q);
    if pc.left == {} {
      pc' := Payload;
    } else {
      var key :| key in pc.left;
      pc' := ContextTypes(pc.left - {key});
    }
  }

  lemma NextOfGovernance(s: Ledger, q: Submission, pc: Pc) returns (pc': Pc)
    requires HistoryCut(s) == q.decision.cut && GovernanceFlaw(s, q).None?
    requires 3 <= Stage(pc) <= 9 && KeysOf(q, pc)
    ensures Onward(s, q, pc, pc') && 3 <= Stage(pc') <= 10 && KeysOf(q, pc')
  {
    if pc.Rules? || pc.Parents? {
      pc' := NextOfRules(s, q, pc);
    } else if pc.ContextTypes? {
      pc' := NextOfKeys(s, q, pc);
    } else {
      hide Registered, GovernanceFlaw;
      GovernedTypes(s, q);
      pc' := if pc.CurrentCut? then CommandType else if pc.CommandType? then ActType
             else if pc.ActType? then Rules(0) else Parents(0);
    }
  }

  lemma GovernedTypes(s: Ledger, q: Submission)
    requires GovernanceFlaw(s, q).None?
    ensures Registered(s, "command_type", Plain(q.command.commandType), q.decision.registryCut)
    ensures Registered(s, "act_type", Plain(q.actType), q.decision.registryCut) && q.decision.ruleHashes != []
    ensures forall key | key in q.context.values :: Registered(s, "context_type", Plain(key), q.decision.registryCut)
    ensures q.command.payloadHash in s.objects
  {
  }

  /** Alone, a presentable worker reads on to the cut check. */
  lemma {:induction false} ReadsProof(ed: Verifier, d: Discipline, x: System, i: nat, q: Submission, pc: Pc)
    requires Has(x, i, q, pc) && Presentable(x.db, q) && Cleared(x.db, q, pc) && Stage(pc) <= 3
    ensures Reaches(ed, d, x, WithWorker(x, i, Worker(q, CurrentCut)))
    decreases Distance(pc), Left(q, pc)
  {
    hide Presentable, Cleared, ReadStep, Writes;
    if Stage(pc) == 3 {
      assert pc == CurrentCut && WithWorker(x, i, Worker(q, CurrentCut)) == x;
      ReachesSelf(ed, d, x);
    } else {
      var pc' := NextOfProof(x.db, q, pc);
      var y := WithWorker(x, i, Worker(q, pc'));
      ProofStepCleared(x.db, q, pc, pc');
      ReachesRead(ed, d, x, i, q, pc, pc');
      ReadsProof(ed, d, y, i, q, pc');
      assert WithWorker(y, i, Worker(q, CurrentCut)) == WithWorker(x, i, Worker(q, CurrentCut));
      ReachesOn(ed, d, x, y, WithWorker(x, i, Worker(q, CurrentCut)));
    }
  }

  lemma ReachesRead(ed: Verifier, d: Discipline, x: System, i: nat, q: Submission, pc: Pc, pc': Pc)
    requires Has(x, i, q, pc) && ReadStep(x.db, q, pc, pc')
    ensures Reaches(ed, d, x, WithWorker(x, i, Worker(q, pc')))
  {
    ReadsWriteNothing(x.db, q, pc, pc');
    assert Moves(ed, d, x, Advance(i, pc'), WithWorker(x, i, Worker(q, pc')));
    ReachesBy(ed, d, x, Advance(i, pc'), WithWorker(x, i, Worker(q, pc')));
  }

  lemma ReadsWriteNothing(s: Ledger, q: Submission, pc: Pc, pc': Pc)
    requires ReadStep(s, q, pc, pc')
    ensures Writes(q, pc).None?
  {
  }

  /** Alone, a worker whose cut is the history, and that nothing governing refuses, reads on to its writes. */
  lemma {:induction false} ReadsGovernance(ed: Verifier, d: Discipline, x: System, i: nat, q: Submission, pc: Pc)
    requires Has(x, i, q, pc) && HistoryCut(x.db) == q.decision.cut && GovernanceFlaw(x.db, q).None?
    requires 3 <= Stage(pc) <= 10 && KeysOf(q, pc)
    ensures Reaches(ed, d, x, WithWorker(x, i, Worker(q, PutCommand)))
    decreases Distance(pc), Left(q, pc)
  {
    hide GovernanceFlaw, ReadStep, KeysOf;
    if Stage(pc) == 10 {
      assert pc == PutCommand && WithWorker(x, i, Worker(q, PutCommand)) == x;
      ReachesSelf(ed, d, x);
    } else {
      var pc' := NextOfGovernance(x.db, q, pc);
      var y := WithWorker(x, i, Worker(q, pc'));
      ReachesRead(ed, d, x, i, q, pc, pc');
      ReadsGovernance(ed, d, y, i, q, pc');
      assert WithWorker(y, i, Worker(q, PutCommand)) == WithWorker(x, i, Worker(q, PutCommand));
      ReachesOn(ed, d, x, y, WithWorker(x, i, Worker(q, PutCommand)));
    }
  }

  // --- writes and the call ---

  /** Whatever arrays list its cuts, the RPC would place this submission. */
  ghost predicate RpcAccepts(s: Ledger, q: Submission) {
    exists cut, registryCut :: RpcAcceptsAs(s, q, cut, registryCut)
  }

  predicate RpcAcceptsAs(s: Ledger, q: Submission, cut: seq<Text>, registryCut: seq<Text>) {
    && Lists(cut, q.decision.cut) && Lists(registryCut, q.decision.registryCut)
    && RpcRefusal(s, RpcArgsOf(q, cut, registryCut)).None?
  }

  lemma WritesThrough(ed: Verifier, d: Discipline, x: System, i: nat, q: Submission)
    requires Has(x, i, q, PutCommand) && Unobstructed(x.db, q)
    ensures Reaches(ed, d, x, System(Lodged(x.db, q), x.workers[i := Worker(q, CallRpc)]))
  {
    hide CommandHash, ContextHash, CommandRecord, ContextRecord;
    HashesDiffer(q);
    var s1 := x.db.(objects := x.db.objects[CommandHash(q.command) := CommandRecord(q)]);
    var y := System(s1, x.workers[i := Worker(q, PutContext)]);
    var z := System(Lodged(x.db, q), x.workers[i := Worker(q, CallRpc)]);
    assert z.workers == y.workers[i := Worker(q, CallRpc)];
    ReachesBy(ed, d, x, Advance(i, PutContext), y);
    ReachesBy(ed, d, y, Advance(i, CallRpc), z);
    ReachesOn(ed, d, x, y, z);
  }

  lemma Calls(ed: Verifier, d: Discipline, x: System, i: nat, q: Submission)
    requires Has(x, i, q, CallRpc) && ActHash(q) !in x.db.acts && RpcAccepts(x.db, q)
    ensures Reaches(ed, d, x, System(Append(x.db, ActOf(q), Canonical(CanonicalValue(q))),
                                     x.workers[i := Worker(q, Done(Ok(ActOf(q))))]))
  {
    hide RpcRefusal, CanonicalValue, ReadStep, WriteStep;
    var cut, registryCut :| RpcAcceptsAs(x.db, q, cut, registryCut);
    var a := RpcArgsOf(q, cut, registryCut);
    assert RowToAct(a) == ActOf(q);
    ReachesBy(ed, d, x, Call(i, cut, registryCut),
              System(Append(x.db, ActOf(q), a.canon), x.workers[i := Worker(q, Done(Ok(ActOf(q))))]));
  }

  /** Nothing stands between a submission at its cut and its place in history. */
  ghost predicate Placeable(s: Ledger, q: Submission) {
    && ActHash(q) !in s.acts
    && HistoryCut(s) == q.decision.cut && GovernanceFlaw(s, q).None?
    && Unobstructed(s, q) && RpcAccepts(Lodged(s, q), q)
  }

  /** Alone, a worker at its cut reaches the RPC with its supporting objects stored. */
  lemma ReachesCall(ed: Verifier, d: Discipline, x: System, i: nat, q: Submission)
    requires Has(x, i, q, CurrentCut) && Placeable(x.db, q)
    ensures Reaches(ed, d, x, System(Lodged(x.db, q), x.workers[i := Worker(q, CallRpc)]))
  {
    hide GovernanceFlaw, Unobstructed, RpcAccepts, ActOf, ActHash, CanonicalValue;
    var y := WithWorker(x, i, Worker(q, PutCommand));
    var z := System(Lodged(x.db, q), x.workers[i := Worker(q, CallRpc)]);
    ReadsGovernance(ed, d, x, i, q, CurrentCut);
    WritesThrough(ed, d, y, i, q);
    assert y.workers[i := Worker(q, CallRpc)] == z.workers;
    ReachesOn(ed, d, x, y, z);
  }

  lemma CarriesOn(ed: Verifier, d: Discipline, x: System, i: nat, q: Submission)
    requires Has(x, i, q, CurrentCut) && Placeable(x.db, q)
    ensures Reaches(ed, d, x, System(AfterPlacing(x.db, q), x.workers[i := Worker(q, Done(Ok(ActOf(q))))]))
  {
    hide GovernanceFlaw, Unobstructed, RpcAccepts, ActOf, ActHash, CanonicalValue;
    var z := System(Lodged(x.db, q), x.workers[i := Worker(q, CallRpc)]);
    var end := System(AfterPlacing(x.db, q), x.workers[i := Worker(q, Done(Ok(ActOf(q))))]);
    ReachesCall(ed, d, x, i, q);
    Calls(ed, d, z, i, q);
    assert z.workers[i := Worker(q, Done(Ok(ActOf(q))))] == end.workers;
    ReachesOn(ed, d, x, z, end);
  }

  /** A worker begins, and alone reads on to the cut check. */
  lemma Begins(ed: Verifier, d: Discipline, x: System, q: Submission)
    requires AuthenticityFlaw(ed, q).None? && MayStart(d, x.db, q) && Presentable(x.db, q)
    ensures Reaches(ed, d, x, System(x.db, x.workers + [Worker(q, CurrentCut)]))
  {
    hide Presentable, AuthenticityFlaw;
    var i, y := |x.workers|, System(x.db, x.workers + [Worker(q, Lookup)]);
    assert WithWorker(y, i, Worker(q, CurrentCut)) == System(x.db, x.workers + [Worker(q, CurrentCut)]);
    ReachesBy(ed, d, x, Start(q), y);
    ReadsProof(ed, d, y, i, q, Lookup);
    ReachesOn(ed, d, x, y, System(x.db, x.workers + [Worker(q, CurrentCut)]));
  }

  /** Whatever the gate accepts and the RPC does not refuse, one worker carries out from any state, and
      leaves the database exactly where the sequential commit leaves it. */
  lemma LoneWorkerCommits(ed: Verifier, d: Discipline, x: System, q: Submission)
    requires AuthenticityFlaw(ed, q).None? && Refusal(x.db, q).None? && Placeable(x.db, q)
    ensures Commit(ed, x.db, q) == (AfterPlacing(x.db, q), Ok(ActOf(q)))
    ensures Reaches(ed, d, x, System(Commit(ed, x.db, q).0, x.workers + [Worker(q, Done(Ok(ActOf(q))))]))
  {
    var i, y := |x.workers|, System(x.db, x.workers + [Worker(q, CurrentCut)]);
    var z := System(AfterPlacing(x.db, q), x.workers + [Worker(q, Done(Ok(ActOf(q))))]);
    Presents(x.db, q);
    Begins(ed, d, x, q);
    CarriesOn(ed, d, y, i, q);
    assert y.workers[i := Worker(q, Done(Ok(ActOf(q))))] == z.workers;
    ReachesOn(ed, d, x, y, z);
    CommitsTo(ed, x.db, q);
  }

  lemma Presents(s: Ledger, q: Submission)
    requires ActHash(q) !in s.acts && Refusal(s, q).None?
    ensures Presentable(s, q)
  {
  }

  lemma CommitsTo(ed: Verifier, s: Ledger, q: Submission)
    requires AuthenticityFlaw(ed, q).None? && Refusal(s, q).None? && Placeable(s, q)
    ensures Commit(ed, s, q) == (AfterPlacing(s, q), Ok(ActOf(q)))
  {
    hide Refusal, AuthenticityFlaw, CanonicalValue, CommandHash, ContextHash, CommandRecord, ContextRecord;
    HashesDiffer(q);
    var cut, registryCut :| RpcAcceptsAs(Lodged(s, q), q, cut, registryCut);
    RpcChecksObject(Lodged(s, q), RpcArgsOf(q, cut, registryCut));
    UnobstructedCommit(ed, s, q);
  }

  lemma RpcChecksObject(s: Ledger, a: RpcArgs)
    requires RpcRefusal(s, a).None?
    ensures Free(s.objects, a.actHash, Record(a.canon, "act"))
  {
  }
}

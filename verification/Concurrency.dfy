/**
 Any number of workers over one database: each runs the gate as separate store calls, and
 the calls of all workers interleave freely.  Every such run is a sequential run of commits.
 */
module Concurrency {
  import opened Canon
  import opened Types
  import opened Ledgers
  import opened Gate
  import opened History
  import opened Consequence
  import opened Postgres
  import opened Workers

  datatype Worker = Worker(q: Submission, pc: Pc)

  datatype System = System(db: Ledger, workers: seq<Worker>)

  /** One atomic move.  `Start` ends an evaluation and begins a commit; `Advance` is one store call of
      worker i; `Call` its RPC, with the arrays the adapter sends; the rest is everybody else. */
  datatype Event =
    | Start(q: Submission)
    | Advance(i: nat, pc: Pc)
    | Call(i: nat, cut: seq<Text>, registryCut: seq<Text>)
    | Store(hash: Text, record: Record)
    | Enter(entry: Entry)
    | Project(identities: map<Text, Identity>, bindings: map<(Text, Text), Text>)

  /** Which commits may begin at a cut that history does not contain yet: those of the listed Act types.
      All others begin at known cuts, as the service sees to for every type. */
  datatype Discipline = AnyCutFor(types: set<string>)

  const KNOWN_CUTS: Discipline := AnyCutFor({})

  predicate MayStart(d: Discipline, s: Ledger, q: Submission) {
    q.actType in d.types || q.decision.cut <= HistoryCut(s)
  }

  /** No listed type has guards that later history could overturn. */
  predicate IsSafe(d: Discipline) {
    forall t | t in d.types :: IsSteady(t)
  }

  function Opening(ed: Verifier, q: Submission): Pc {
    match AuthenticityFlaw(ed, q)
    case Some(flaw) => Done(Err(flaw))
    case None => Lookup
  }

  predicate Moves(ed: Verifier, d: Discipline, x: System, e: Event, y: System) {
    match e
    case Start(q) =>
      && MayStart(d, x.db, q)
      && y == System(x.db, x.workers + [Worker(q, Opening(ed, q))])
    case Advance(i, pc) =>
      && i < |x.workers|
      && var w := x.workers[i];
      && y.workers == x.workers[i := Worker(w.q, pc)]
      && if Writes(w.q, w.pc).Some? then WriteStep(x.db, w.q, w.pc, pc, y.db)
         else ReadStep(x.db, w.q, w.pc, pc) && y.db == x.db
    case Call(i, cut, registryCut) =>
      && i < |x.workers|
      && var w := x.workers[i];
      && w.pc.CallRpc?
      && Lists(cut, w.q.decision.cut) && Lists(registryCut, w.q.decision.registryCut)
      && var (db, r) := CommitActRpc(x.db, RpcArgsOf(w.q, cut, registryCut));
      && y == System(db, x.workers[i := Worker(w.q, Done(RpcAnswer(r)))])
    case Store(h, record) =>
      y == System(PutObject(x.db, h, record).GetOr(x.db), x.workers)
    case Enter(entry) =>
      y == System(x.db.(registry := x.db.registry + [entry]), x.workers)
    case Project(identities, bindings) =>
      y == System(x.db.(identities := identities, bindings := bindings), x.workers)
  }

  /** A run: states and the events between them, from a database with no worker at work. */
  predicate IsRun(ed: Verifier, d: Discipline, xs: seq<System>, es: seq<Event>) {
    && |xs| == |es| + 1
    && xs[0].workers == []
    && forall k | 0 <= k < |es| :: Moves(ed, d, xs[k], es[k], xs[k + 1])
  }

  // --- the invariant ---

  /** What a steady worker has passed holds.  Any other worker's cut is known; and if history still is
      that cut, the guards it passed still hold. */
  predicate Sound(ed: Verifier, s: Ledger, w: Worker) {
    w.pc.Done? ||
    (&& AuthenticityFlaw(ed, w.q).None?
     && if IsSteady(w.q.actType) then SteadyCleared(s, w.q, w.pc)
        else
          && w.q.decision.cut <= HistoryCut(s)
          && (HistoryCut(s) == w.q.decision.cut ==> Cleared(s, w.q, w.pc)))
  }

  predicate AllSound(ed: Verifier, x: System) {
    WellFormed(x.db) && forall i | 0 <= i < |x.workers| :: Sound(ed, x.db, x.workers[i])
  }

  predicate Grows(s: Ledger, t: Ledger) {
    Extends(s, t) && forall e | e in s.registry :: e in t.registry
  }

  lemma SoundGrows(ed: Verifier, s: Ledger, t: Ledger, w: Worker)
    requires WellFormed(s) && WellFormed(t) && Grows(s, t) && Sound(ed, s, w)
    ensures Sound(ed, t, w)
  {
    hide Cleared, SteadyCleared;
    if !w.pc.Done? {
      if IsSteady(w.q.actType) {
        SteadyGrows(s, t, w.q, w.pc);
      } else if HistoryCut(t) == w.q.decision.cut {
        SameCutSameHistory(s, t);
        ClearedGrows(s, t, w.q, w.pc);
      }
    }
  }

  lemma WriteGrows(s: Ledger, q: Submission, pc: Pc, pc': Pc, t: Ledger)
    requires WellFormed(s) && WriteStep(s, q, pc, pc', t)
    ensures WellFormed(t) && Grows(s, t) && GrowsBeside(s, t)
  {
    hide CanonicalValue, CommandRecord, ContextRecord, CommandHash, ContextHash;
  }

  lemma WriteSound(ed: Verifier, s: Ledger, w: Worker, pc: Pc, t: Ledger)
    requires WellFormed(s) && Sound(ed, s, w) && WriteStep(s, w.q, w.pc, pc, t)
    ensures WellFormed(t) && Grows(s, t)
    ensures Sound(ed, t, Worker(w.q, pc))
  {
    hide Midway, CommandRecord, ContextRecord, WriteStep, Passed, SteadyCleared, CommandHash, ContextHash;
    WriteGrows(s, w.q, w.pc, pc, t);
    if !pc.Done? && !w.pc.Done? {
      if IsSteady(w.q.actType) {
        SteadyGrows(s, t, w.q, w.pc);
        SteadyWrite(s, w.q, w.pc, pc, t);
      } else if HistoryCut(t) == w.q.decision.cut {
        PassedGrows(s, t, w.q, Stage(w.pc));
        WriteStepCleared(s, w.q, w.pc, pc, t);
      }
    } else if !pc.Done? {
      NoWriteWhenDone(s, w.q, w.pc, pc, t);
    }
  }

  lemma NoWriteWhenDone(s: Ledger, q: Submission, pc: Pc, pc': Pc, t: Ledger)
    requires WriteStep(s, q, pc, pc', t)
    ensures !pc.Done?
  {
  }

  lemma ReadSound(ed: Verifier, s: Ledger, w: Worker, pc: Pc)
    requires WellFormed(s) && Sound(ed, s, w) && Writes(w.q, w.pc).None? && ReadStep(s, w.q, w.pc, pc)
    ensures Sound(ed, s, Worker(w.q, pc))
  {
    hide Cleared, SteadyCleared, ReadStep, CanonicalValue;
    assert !w.pc.Done? by {
      NoReadWhenDone(s, w.q, w.pc, pc);
    }
    if !pc.Done? {
      if IsSteady(w.q.actType) {
        if Stage(w.pc) <= 2 {
          SteadyProofRead(s, w.q, w.pc, pc);
        } else {
          SteadyGovernanceRead(s, w.q, w.pc, pc);
        }
      } else if HistoryCut(s) == w.q.decision.cut {
        if Stage(w.pc) <= 2 {
          ProofStepCleared(s, w.q, w.pc, pc);
        } else {
          RegistryStepCleared(s, w.q, w.pc, pc);
        }
      }
    }
  }

  lemma NoReadWhenDone(s: Ledger, q: Submission, pc: Pc, pc': Pc)
    requires ReadStep(s, q, pc, pc')
    ensures !pc.Done?
  {
  }

  lemma CommitGrows(ed: Verifier, s: Ledger, q: Submission, t: Ledger, r: Result<Act, CommitError>)
    requires WellFormed(s) && Commit(ed, s, q) == (t, r)
    ensures WellFormed(t) && Grows(s, t)
  {
    CommitEffect(ed, s, q);
  }

  lemma RefusedCall(s: Ledger, a: RpcArgs)
    requires CommitActRpc(s, a).1.Err?
    ensures CommitActRpc(s, a).0 == s
  {
  }

  lemma CallSound(ed: Verifier, s: Ledger, w: Worker, cut: seq<Text>, registryCut: seq<Text>)
    requires WellFormed(s) && Sound(ed, s, w) && w.pc.CallRpc?
    requires Lists(cut, w.q.decision.cut) && Lists(registryCut, w.q.decision.registryCut)
    ensures var (t, r) := CommitActRpc(s, RpcArgsOf(w.q, cut, registryCut));
            && WellFormed(t) && Grows(s, t)
            && (r.Ok? ==> Commit(ed, s, w.q) == (t, RpcAnswer(r)))
            && (r.Err? ==> t == s)
  {
    var q, a := w.q, RpcArgsOf(w.q, cut, registryCut);
    hide Gate.Commit, RpcRefusal, CanonicalValue, ProofFlaw, HasConsequence, Registered, ActHash;
    var t, r := CommitActRpc(s, a).0, CommitActRpc(s, a).1;
    if r.Ok? {
      RpcIsCommit(ed, s, q, cut, registryCut);
      CommitGrows(ed, s, q, t, RpcAnswer(r));
    } else {
      RefusedCall(s, a);
    }
  }

  lemma MoveSound(ed: Verifier, d: Discipline, x: System, e: Event, y: System)
    requires IsSafe(d) && AllSound(ed, x) && Moves(ed, d, x, e, y)
    ensures AllSound(ed, y) && Grows(x.db, y.db)
  {
    match e {
      case Advance(i, pc) =>
        if Writes(x.workers[i].q, x.workers[i].pc).Some? {
          WriteSound(ed, x.db, x.workers[i], pc, y.db);
        } else {
          ReadSound(ed, x.db, x.workers[i], pc);
        }
      case Call(i, cut, registryCut) => CallSound(ed, x.db, x.workers[i], cut, registryCut);
      case _ =>
    }
    forall j | 0 <= j < |y.workers| ensures Sound(ed, y.db, y.workers[j]) {
      if j < |x.workers| && y.workers[j] == x.workers[j] {
        SoundGrows(ed, x.db, y.db, x.workers[j]);
      }
    }
  }

  /** In every state of every run, every worker is sound. */
  lemma {:induction false} RunSound(ed: Verifier, d: Discipline, xs: seq<System>, es: seq<Event>, k: nat)
    requires IsSafe(d) && IsRun(ed, d, xs, es) && WellFormed(xs[0].db) && k <= |es|
    ensures AllSound(ed, xs[k]) && Grows(xs[0].db, xs[k].db)
  {
    if k > 0 {
      RunSound(ed, d, xs, es, k - 1);
      MoveSound(ed, d, xs[k - 1], es[k - 1], xs[k]);
    }
  }

  // --- serializability ---

  /** Event k is the one at which worker i is given Act a. */
  predicate Answered(xs: seq<System>, k: nat, i: nat, a: Act) {
    && k + 1 < |xs| && i < |xs[k].workers| && i < |xs[k + 1].workers|
    && !xs[k].workers[i].pc.Done?
    && xs[k + 1].workers[i].pc == Done(Ok(a))
  }

  /** Whatever the interleaving, a worker that is given an Act is given what one sequential commit of
      its submission returns at that very moment, with the same effect on the whole database. */
  lemma Serializable(ed: Verifier, d: Discipline, xs: seq<System>, es: seq<Event>, k: nat, i: nat, a: Act)
    requires IsSafe(d) && IsRun(ed, d, xs, es) && WellFormed(xs[0].db)
    requires Answered(xs, k, i, a)
    ensures Commit(ed, xs[k].db, xs[k].workers[i].q) == (xs[k + 1].db, Ok(a))
  {
    hide CommitActRpc, Refusal, CanonicalValue, Cleared;
    RunSound(ed, d, xs, es, k);
    var x, e := xs[k], es[k];
    assert Moves(ed, d, x, e, xs[k + 1]);
    match e {
      case Advance(j, pc) =>
        assert j == i && x.workers[i].pc.Lookup?;
      case Call(j, cut, registryCut) =>
        assert j == i;
        CallSound(ed, x.db, x.workers[i], cut, registryCut);
      case _ =>
    }
  }

  lemma {:induction false} RunGrows(ed: Verifier, d: Discipline, xs: seq<System>, es: seq<Event>, j: nat, k: nat)
    requires IsSafe(d) && IsRun(ed, d, xs, es) && WellFormed(xs[0].db) && j <= k <= |es|
    ensures WellFormed(xs[j].db) && WellFormed(xs[k].db) && Extends(xs[j].db, xs[k].db)
  {
    hide Moves, Sound, WellFormed;
    RunSound(ed, d, xs, es, j);
    if j < k {
      RunGrows(ed, d, xs, es, j, k - 1);
      RunSound(ed, d, xs, es, k - 1);
      assert Moves(ed, d, xs[k - 1], es[k - 1], xs[k]);
      MoveSound(ed, d, xs[k - 1], es[k - 1], xs[k]);
    }
  }

  lemma {:induction false} WorkerRemembers(ed: Verifier, d: Discipline, xs: seq<System>, es: seq<Event>, j: nat, k: nat)
    requires IsSafe(d) && IsRun(ed, d, xs, es) && j < k <= |es| && es[j].Start?
    ensures |xs[j].workers| < |xs[k].workers| && xs[k].workers[|xs[j].workers|].q == es[j].q
  {
    hide WriteStep, ReadStep, CommitActRpc, RpcArgsOf;
    assert Moves(ed, d, xs[k - 1], es[k - 1], xs[k]);
    if j < k - 1 {
      WorkerRemembers(ed, d, xs, es, j, k - 1);
    }
  }

  /** Whatever the interleaving, an RPC places a new Act only if no other Act was placed since any
      moment at which its cut was already known, be it the first read of the evaluation it stands on:
      the history seen then is the history its Act extends. */
  lemma NothingPlacedMeanwhile(ed: Verifier, d: Discipline, xs: seq<System>, es: seq<Event>,
                               seen: nat, j: nat, k: nat, m: nat)
    requires IsSafe(d) && IsRun(ed, d, xs, es) && WellFormed(xs[0].db) && seen <= j < k < |es|
    requires es[j].Start? && es[k].Call? && es[k].i == |xs[j].workers|
    requires ActHash(es[j].q) !in xs[k].db.acts && ActHash(es[j].q) in xs[k + 1].db.acts
    requires es[j].q.decision.cut <= HistoryCut(xs[seen].db) && seen <= m <= k
    ensures xs[m].db.acts == xs[seen].db.acts && xs[m].db.order == xs[seen].db.order
    ensures HistoryCut(xs[seen].db) == es[j].q.decision.cut
  {
    hide CommitActRpc, RpcRefusal;
    var q, s, t := es[j].q, xs[seen].db, xs[k].db;
    var a := RpcArgsOf(q, es[k].cut, es[k].registryCut);
    assert Moves(ed, d, xs[j], es[j], xs[j + 1]) && Moves(ed, d, xs[k], es[k], xs[k + 1]);
    WorkerRemembers(ed, d, xs, es, j, k);
    RunGrows(ed, d, xs, es, seen, k);
    RunGrows(ed, d, xs, es, seen, m);
    RunGrows(ed, d, xs, es, m, k);
    if CommitActRpc(t, a).1.Err? {
      RefusedCall(t, a);
    }
    AcceptedAtCut(t, a);
    SameCutSameHistory(s, t);
    SameCutSameHistory(s, xs[m].db);
  }

  lemma AcceptedAtCut(db: Ledger, a: RpcArgs)
    requires WellFormed(db) && a.actHash !in db.acts && CommitActRpc(db, a).1.Ok?
    ensures ToSet(a.decisionCut) == HistoryCut(db)
  {
    RpcChecks(db, a);
  }

  /** The sequential steps an event amounts to: none for a read or a refused call, one commit for an
      accepted call, one object write or one administrative change otherwise. */
  function Linearized(x: System, e: Event): seq<Step> {
    match e
    case Start(_) => []
    case Advance(i, _) =>
      if i < |x.workers| && Writes(x.workers[i].q, x.workers[i].pc).Some?
      then var (h, record) := Writes(x.workers[i].q, x.workers[i].pc).value; [Put(h, record)]
      else []
    case Call(i, cut, registryCut) =>
      if i < |x.workers| && CommitActRpc(x.db, RpcArgsOf(x.workers[i].q, cut, registryCut)).1.Ok?
      then [Submit(x.workers[i].q)]
      else []
    case Store(h, record) => [Put(h, record)]
    case Enter(entry) => [Administer(x.db.registry + [entry], x.db.identities, x.db.bindings)]
    case Project(identities, bindings) => [Administer(x.db.registry, identities, bindings)]
  }

  lemma MoveLinearized(ed: Verifier, d: Discipline, x: System, e: Event, y: System)
    requires IsSafe(d) && AllSound(ed, x) && Moves(ed, d, x, e, y)
    ensures Execute(ed, x.db, Linearized(x, e)) == y.db
  {
    var steps := Linearized(x, e);
    if |steps| == 1 {
      assert steps[..0] == [];
      assert Execute(ed, x.db, steps) == Apply(ed, x.db, steps[0]);
    }
    if e.Call? {
      CallSound(ed, x.db, x.workers[e.i], e.cut, e.registryCut);
    }
  }

  /** The sequential run that an interleaved run amounts to. */
  function Linearization(xs: seq<System>, es: seq<Event>): seq<Step>
    requires |xs| == |es| + 1
  {
    if es == [] then []
    else
      var n := |es| - 1;
      Linearization(xs[..n + 1], es[..n]) + Linearized(xs[n], es[n])
  }

  lemma {:induction false} ExecuteAppend(ed: Verifier, s: Ledger, a: seq<Step>, b: seq<Step>)
    ensures Execute(ed, s, a + b) == Execute(ed, Execute(ed, s, a), b)
  {
    if b == [] {
      assert a + b == a;
    } else {
      ExecuteAppend(ed, s, a, b[..|b| - 1]);
      assert (a + b)[..|a + b| - 1] == a + b[..|b| - 1];
    }
  }

  /** Every interleaved run leaves the database exactly where a sequential run of commits, object
      writes and administrative changes leaves it. */
  lemma {:induction false} RunLinearizes(ed: Verifier, d: Discipline, xs: seq<System>, es: seq<Event>)
    requires IsSafe(d) && IsRun(ed, d, xs, es) && WellFormed(xs[0].db)
    ensures Execute(ed, xs[0].db, Linearization(xs, es)) == xs[|es|].db
  {
    if es != [] {
      var n := |es| - 1;
      var xs', es' := xs[..n + 1], es[..n];
      assert IsRun(ed, d, xs', es') by {
        forall k | 0 <= k < |es'| ensures Moves(ed, d, xs'[k], es'[k], xs'[k + 1]) {
          assert Moves(ed, d, xs[k], es[k], xs[k + 1]);
        }
      }
      RunLinearizes(ed, d, xs', es');
      RunSound(ed, d, xs, es, n);
      assert Moves(ed, d, xs[n], es[n], xs[n + 1]);
      MoveLinearized(ed, d, xs[n], es[n], xs[n + 1]);
      ExecuteAppend(ed, xs[0].db, Linearization(xs', es'), Linearized(xs[n], es[n]));
    }
  }

  /** So the laws of sequential history are laws of every interleaved run. */
  lemma ConcurrentHistoryLawful(ed: Verifier, d: Discipline, xs: seq<System>, es: seq<Event>)
    requires IsSafe(d) && IsRun(ed, d, xs, es) && WellFormed(xs[0].db) && SingleConsequence(xs[0].db)
    ensures Lawful(xs[|es|].db, |xs[0].db.order|)
    ensures SingleConsequence(xs[|es|].db)
    ensures Extends(xs[0].db, xs[|es|].db)
  {
    var steps := Linearization(xs, es);
    RunLinearizes(ed, d, xs, es);
    RunLawful(ed, xs[0].db, steps, |xs[0].db.order|);
    RunSingleConsequence(ed, xs[0].db, steps);
  }
}

/**
 The authority service among concurrent workers (service/authority.py over ledger/postgres.py): every
 read of an evaluation is answered from a state of its own, and so is every later look at what a
 Command has settled.
 */
module Interleaving {
  import opened Canon
  import opened Types
  import opened Ledgers
  import opened Gate
  import opened History
  import opened Consequence
  import opened Rules
  import opened Requests
  import opened Authority
  import opened ServiceLaws
  import opened Idempotence
  import opened Postgres
  import opened Workers
  import opened Concurrency
  import Schedules

  /** The reads of one service commit before it turns to the gate: those of its evaluation, then what the
      Command has settled, then the history once more. */
  datatype Read =
    | CutRead
    | ClosedHistory
    | ClosedRegistry
    | PerformerRead
    | PrincipalRead
    | RequesterRead
    | PayloadRead
    | CommandTypeRead
    | ActTypeRead
    | ContextTypeRead(key: string)
    | EntriesRead
    | RuleRead(i: nat)
    | SettledRead
    | CutBeforeRead

  /** The state each read was answered from. */
  type Reads = Read -> Ledger

  /** Bindings from one read, Identities from another: all that resolving a requester looks at. */
  function RequesterView(at: Reads): Ledger {
    at(PrincipalRead).(identities := at(RequesterRead).identities)
  }

  predicate CutsRead(at: Reads, r: ActionRequest, e: Evaluated) {
    && e.decision.cut == r.historyCut.GetOr(HistoryCut(at(CutRead)))
    && e.decision.registryCut == r.registryCut.GetOr(e.decision.cut)
    && IsClosedCut(at(ClosedHistory), e.decision.cut)
    && IsClosedCut(at(ClosedRegistry), e.decision.registryCut) && e.decision.registryCut <= e.decision.cut
  }

  predicate PartiesRead(v: Service, at: Reads, r: ActionRequest, p: Option<Principal>, e: Evaluated) {
    && e.command.identityHash in at(PerformerRead).identities
    && e.identity == at(PerformerRead).identities[e.command.identityHash]
    && v.ed(e.identity.publicKey, e.command.signature, SigningValue(e.command))
    && match ResolveRequester(RequesterView(at), v.allowSigned, e.identity, p)
       case Err(_) => false
       case Ok((requestedBy, kind)) => ContextOf(r, DerivedKeys(e.identity, requestedBy, kind, p)) == Ok(e.context)
  }

  predicate TypesRead(at: Reads, r: ActionRequest, e: Evaluated) {
    && PayloadFlaw(at(PayloadRead), r).None?
    && Registered(at(CommandTypeRead), "command_type", Plain(r.commandType), e.decision.registryCut)
    && Registered(at(ActTypeRead), "act_type", Plain(r.actType), e.decision.registryCut)
    && forall key | key in e.context.values ::
         Registered(at(ContextTypeRead(key)), "context_type", Plain(key), e.decision.registryCut)
  }

  predicate RulesRead(v: Service, at: Reads, e: Evaluated) {
    match Resolve(v, at(EntriesRead).registry, v.ruleNames, e.decision.registryCut)
    case Err(_) => false
    case Ok(rules) =>
      && rules != []
      && (forall i | 0 <= i < |rules| :: Registered(at(RuleRead(i)), "rule", rules[i].hash, e.decision.registryCut))
      && Authorized(e.identity, e.command, e.context, e.decision.cut, e.decision.registryCut, rules) == Ok(e.decision)
  }

  /** An evaluation that succeeded with these reads. */
  predicate EvaluatedAcross(v: Service, at: Reads, r: ActionRequest, p: Option<Principal>, e: Evaluated) {
    && CommandOf(r) == Ok(e.command) && e.actType == r.actType && e.authChain == r.authChain && e.payload == r.payload
    && CutsRead(at, r, e) && PartiesRead(v, at, r, p, e) && TypesRead(at, r, e) && RulesRead(v, at, e)
  }

  lemma StillReadsJudge(v: Service, s: Ledger, r: ActionRequest, e: Evaluated)
    requires CommandOf(r).Ok? && CommandOf(r).value == e.command
    requires e.actType == r.actType && e.authChain == r.authChain && e.payload == r.payload
    ensures Judge(v, s, r, e.identity, e.command, e.context, e.decision.cut, e.decision.registryCut) == Ok(e)
       <==> TypesRead(read => s, r, e) && RulesRead(v, read => s, e)
  {
    hide Registered, Resolve, Authorized, PayloadFlaw, CommandOf;
    var cut, registryCut := e.decision.cut, e.decision.registryCut;
    if Resolve(v, s.registry, v.ruleNames, registryCut).Ok? {
      var rules := Resolve(v, s.registry, v.ruleNames, registryCut).value;
      assert forall i | 0 <= i < |rules| :: RuleHashes(rules)[i] == rules[i].hash;
      assert (exists h :: h in RuleHashes(rules) && !Registered(s, "rule", h, registryCut))
        <==> exists i :: 0 <= i < |rules| && !Registered(s, "rule", rules[i].hash, registryCut);
    }
  }

  lemma StillReadsSucceed(v: Service, s: Ledger, r: ActionRequest, p: Option<Principal>, e: Evaluated)
    requires EvaluatedAcross(v, read => s, r, p, e)
    ensures Evaluate(v, s, r, p) == Ok(e)
  {
    hide Judge, TypesRead, RulesRead, ResolveRequester, ContextOf, CommandOf, DerivedKeys;
    StillReadsJudge(v, s, r, e);
    assert s.(identities := s.identities) == s;
  }

  lemma EvaluationReads(v: Service, s: Ledger, r: ActionRequest, p: Option<Principal>, e: Evaluated)
    requires Evaluate(v, s, r, p) == Ok(e)
    ensures EvaluatedAcross(v, read => s, r, p, e)
  {
    hide Judge, TypesRead, RulesRead, ResolveRequester, ContextOf, CommandOf, DerivedKeys, Governed, Attributed;
    EvaluationEstablishes(v, s, r, p);
    EvaluationJudges(v, s, r, p, e);
    StillReadsJudge(v, s, r, e);
    assert s.(identities := s.identities) == s;
  }

  lemma EvaluationJudges(v: Service, s: Ledger, r: ActionRequest, p: Option<Principal>, e: Evaluated)
    requires Evaluate(v, s, r, p) == Ok(e) && CommandOf(r) == Ok(e.command)
    ensures e.command.identityHash in s.identities && e.identity == s.identities[e.command.identityHash]
    ensures Judge(v, s, r, e.identity, e.command, e.context, HistoryCutOf(s, r), RegistryCutOf(s, r)) == Ok(e)
    ensures PartiesRead(v, read => s, r, p, e)
  {
    hide TypesRead, RulesRead, CommandOf, DerivedKeys, ContextOf, ResolveRequester, PayloadFlaw, RegistryFlaw;
    hide Resolve, Authorized;
    assert s.(identities := s.identities) == s;
  }

  /** Where nothing moves between the reads, this is the evaluation of one ledger. */
  lemma StillReadsEvaluate(v: Service, s: Ledger, r: ActionRequest, p: Option<Principal>, e: Evaluated)
    ensures EvaluatedAcross(v, read => s, r, p, e) <==> Evaluate(v, s, r, p) == Ok(e)
  {
    hide EvaluatedAcross, Evaluate;
    if EvaluatedAcross(v, read => s, r, p, e) {
      StillReadsSucceed(v, s, r, p, e);
    }
    if Evaluate(v, s, r, p) == Ok(e) {
      EvaluationReads(v, s, r, p, e);
    }
  }

  // --- the answer of a service commit, read by read ---

  /** Past its evaluation a commit goes to the gate if the outcome permits the Act, nothing is settled, and
      history still is the cut. */
  predicate TurnsToGate(at: Reads, e: Evaluated) {
    && e.decision.outcome in PermittedOutcomes(e.actType)
    && SettledBefore(at(SettledRead), e) == Ok(None)
    && e.decision.cut == HistoryCut(at(CutBeforeRead))
  }

  /** What the commit answers: what is settled, or whatever the gate answers, labelled a replay if that Act
      was there at the last look at history. */
  function Answer(at: Reads, e: Evaluated, gate: Result<Act, CommitError>): Result<(Evaluated, Act), ServiceError> {
    if e.decision.outcome !in PermittedOutcomes(e.actType) then Err(Unauthorized)
    else
      match SettledBefore(at(SettledRead), e)
      case Err(conflict) => Err(conflict)
      case Ok(Some(act)) => Ok((Replay(e, Allow, act), act))
      case Ok(None) =>
        if e.decision.cut != HistoryCut(at(CutBeforeRead)) then Err(Conflict)
        else
          match gate
          case Err(refusal) => Err(Refused(refusal))
          case Ok(act) =>
            Ok((if act.hash in HistoryCut(at(CutBeforeRead)) then Replay(e, e.decision.outcome, act) else e, act))
  }

  /** Where nothing moves between the reads, and the payload finds its place, this is the sequential answer. */
  lemma StillAnswers(v: Service, s: Ledger, r: ActionRequest, e: Evaluated)
    requires WithPayload(s, r).Some?
    ensures CommitEvaluated(v, s, r, e).1 ==
              Answer(read => s, e, Gate.Commit(v.ed, WithPayload(s, r).value, SubmissionOf(e, r)).1)
  {
    hide Gate.Commit, WithPayload, SettledBefore, SubmissionOf;
  }

  // --- one service request in an interleaved run ---

  /** At which state of a run each read happened. */
  type Moments = Read -> nat

  function ReadsOf(xs: seq<System>, moments: Moments): Reads
    requires xs != []
  {
    read => if moments(read) < |xs| then xs[moments(read)].db else xs[0].db
  }

  /** The moment at which the evaluation's cut was first seen to be known: the read of the history, or
      the closed-cut check of a cut that the caller chose. */
  function FirstSeen(r: ActionRequest, moments: Moments): nat {
    if r.historyCut.None? then moments(CutRead) else moments(ClosedHistory)
  }

  /** Event j of a run begins the commit of a request whose evaluation read these earlier states, and
      event k is the RPC at which that worker newly places its Act. */
  ghost predicate ServesRequest(v: Service, xs: seq<System>, es: seq<Event>, moments: Moments, j: nat, k: nat,
                                r: ActionRequest, p: Option<Principal>, e: Evaluated) {
    && IsRun(v.ed, KNOWN_CUTS, xs, es) && |xs| == |es| + 1 && WellFormed(xs[0].db) && j < k < |es|
    && (forall read :: moments(read) <= j)
    && EvaluatedAcross(v, ReadsOf(xs, moments), r, p, e) && TurnsToGate(ReadsOf(xs, moments), e)
    && es[j] == Start(SubmissionOf(e, r))
    && es[k].Call? && es[k].i == |xs[j].workers|
    && ActHash(SubmissionOf(e, r)) !in xs[k].db.acts && ActHash(SubmissionOf(e, r)) in xs[k + 1].db.acts
  }

  lemma SeenKnown(v: Service, xs: seq<System>, es: seq<Event>, moments: Moments, j: nat, k: nat,
                  r: ActionRequest, p: Option<Principal>, e: Evaluated)
    requires ServesRequest(v, xs, es, moments, j, k, r, p, e)
    ensures FirstSeen(r, moments) <= j && e.decision.cut <= HistoryCut(xs[FirstSeen(r, moments)].db)
  {
    hide IsRun, PartiesRead, TypesRead, RulesRead;
    assert moments(CutRead) <= j && moments(ClosedHistory) <= j;
    var s := xs[FirstSeen(r, moments)].db;
    if r.historyCut.None? {
      assert e.decision.cut == HistoryCut(s);
    } else {
      assert IsClosedCut(s, e.decision.cut);
    }
  }

  /** An RPC that places an Act is the sequential commit of its worker's submission. */
  lemma FreshCall(ed: Verifier, xs: seq<System>, es: seq<Event>, k: nat)
    requires IsRun(ed, KNOWN_CUTS, xs, es) && WellFormed(xs[0].db) && k < |es| && es[k].Call?
    requires es[k].i < |xs[k].workers|
    requires var h := ActHash(xs[k].workers[es[k].i].q); h !in xs[k].db.acts && h in xs[k + 1].db.acts
    ensures WellFormed(xs[k].db)
    ensures Gate.Commit(ed, xs[k].db, xs[k].workers[es[k].i].q).0 == xs[k + 1].db
    ensures Gate.Commit(ed, xs[k].db, xs[k].workers[es[k].i].q).1.Ok?
  {
    hide CommitActRpc, Gate.Commit, CanonicalValue, Cleared, ActHash, ReadStep, WriteStep;
    var x, w := xs[k], xs[k].workers[es[k].i];
    RunSound(ed, KNOWN_CUTS, xs, es, k);
    assert Moves(ed, KNOWN_CUTS, x, es[k], xs[k + 1]);
    var a := RpcArgsOf(w.q, es[k].cut, es[k].registryCut);
    CallSound(ed, x.db, w, es[k].cut, es[k].registryCut);
    if CommitActRpc(x.db, a).1.Err? {
      RefusedCall(x.db, a);
    }
  }

  lemma FreshCommit(ed: Verifier, s: Ledger, q: Submission)
    requires WellFormed(s) && ActHash(q) !in s.acts && Gate.Commit(ed, s, q).1.Ok?
    ensures var t := Gate.Commit(ed, s, q).0;
            && Refusal(s, q).None? && t.acts == s.acts[ActHash(q) := ActOf(q)]
            && Justified(t.objects, t.acts, s.order, ActOf(q))
  {
    hide Gate.Commit, Refusal, CanonicalValue, Justified;
    CommitEffect(ed, s, q);
    FreshMeansUnrefused(ed, s, q);
  }

  lemma FreshMeansUnrefused(ed: Verifier, s: Ledger, q: Submission)
    requires ActHash(q) !in s.acts && Gate.Commit(ed, s, q).1.Ok?
    ensures Refusal(s, q).None?
  {
    hide Refusal, AuthenticityFlaw, Place;
  }

  lemma RulesGovern(v: Service, at: Reads, r: ActionRequest, p: Option<Principal>, e: Evaluated)
    requires EvaluatedAcross(v, at, r, p, e)
    ensures Governed(v, at(EntriesRead), e)
  {
    hide Resolve, CutsRead, PartiesRead, TypesRead, Authorized, NamesRule;
    var registry, cut := at(EntriesRead).registry, e.decision.registryCut;
    var rules := Resolve(v, registry, v.ruleNames, cut).value;
    ResolvedRulesAreNamed(v, registry, cut);
    DecisionIsMostSevere(e.identity, e.command, e.context, e.decision.cut, cut, rules);
    forall i | 0 <= i < |rules| ensures Registered(at(EntriesRead), "rule", rules[i].hash, cut) {
      NamedIsRegistered(at(EntriesRead), v.ruleNames[i], cut, rules[i].hash);
    }
  }

  lemma NamedIsRegistered(s: Ledger, name: Text, cut: set<Text>, hash: Text)
    requires NamesRule(s.registry, name, cut, hash)
    ensures Registered(s, "rule", hash, cut)
  {
  }

  lemma PartiesAttributed(v: Service, at: Reads, r: ActionRequest, p: Option<Principal>, e: Evaluated)
    requires EvaluatedAcross(v, at, r, p, e)
    ensures Attributed(v, RequesterView(at), e, p) && e.identity.hash == e.command.identityHash
  {
    hide CutsRead, TypesRead, Resolve, ResolveRequester, Truthful, ContextOf;
    var (requestedBy, kind) := ResolveRequester(RequesterView(at), v.allowSigned, e.identity, p).value;
    DerivedFacts(e.identity, requestedBy, kind, p);
    ContextIsTruthful(r, DerivedKeys(e.identity, requestedBy, kind, p));
  }

  /** Whatever other workers do between the reads of an evaluation, between those and the gate's, and
      up to the RPC: an Act that a service request newly places extends the very history its evaluation
      first saw, carries rules that are registered at that moment and that, if it is a consequence, all
      allowed it, and has its performer and requester on record. */
  lemma InterleavedRequestGoverned(v: Service, xs: seq<System>, es: seq<Event>, moments: Moments, j: nat, k: nat,
                                   r: ActionRequest, p: Option<Principal>, e: Evaluated, m: nat)
    requires ServesRequest(v, xs, es, moments, j, k, r, p, e) && FirstSeen(r, moments) <= m <= k
    ensures xs[m].db.acts == xs[FirstSeen(r, moments)].db.acts && xs[m].db.order == xs[FirstSeen(r, moments)].db.order
    ensures var act, at := ActOf(SubmissionOf(e, r)), ReadsOf(xs, moments);
            && xs[k + 1].db.acts == xs[k].db.acts[act.hash := act] && act.decisionCut == HistoryCut(xs[k].db)
            && e.decision.outcome in PermittedOutcomes(e.actType)
            && (forall rule | rule in act.ruleHashes :: Registered(xs[k].db, "rule", rule, act.registryCut))
            && (!IsLifecycle(e.actType) ==> AllowedByEveryRule(v, at(EntriesRead).registry, e, act))
            && ContextAttributes(RequesterView(at), xs[k + 1].db.objects, act, e.identity, p)
  {
    hide IsRun, EvaluatedAcross, ReadsOf, Governed, Attributed, CanonicalValue, ActHash, ContextAttributes;
    hide AllowedByEveryRule, FirstSeen, Justified, Gate.Commit, Refusal;
    var q, at := SubmissionOf(e, r), ReadsOf(xs, moments);
    SeenKnown(v, xs, es, moments, j, k, r, p, e);
    WorkerRemembers(v.ed, KNOWN_CUTS, xs, es, j, k);
    NothingPlacedMeanwhile(v.ed, KNOWN_CUTS, xs, es, FirstSeen(r, moments), j, k, m);
    FreshCall(v.ed, xs, es, k);
    FreshCommit(v.ed, xs[k].db, q);
    RulesGovern(v, at, r, p, e);
    PartiesAttributed(v, at, r, p, e);
    Unrefused(xs[k].db, q);
    OnRecord(xs[k + 1].db, xs[k].db.order, ActOf(q));
    AttributionRecorded(v, RequesterView(at), r, p, e, ActOf(q), xs[k + 1].db.objects, xs[k + 1].db.objects);
    if !IsLifecycle(e.actType) {
      PlacedIsAllowed(v, at(EntriesRead), r, e);
    }
  }

  lemma Unrefused(s: Ledger, q: Submission)
    requires Refusal(s, q).None?
    ensures q.decision.outcome in PermittedOutcomes(q.actType) && HistoryCut(s) == q.decision.cut
    ensures forall rule | rule in q.decision.ruleHashes :: Registered(s, "rule", rule, q.decision.registryCut)
  {
  }

  lemma OnRecord(t: Ledger, before: seq<Text>, act: Act)
    requires Justified(t.objects, t.acts, before, act)
    ensures ContextOnRecord(t.objects, act)
  {
  }

  /** A request that one ledger allows, at its own history, with nothing in the way of gate and RPC. */
  ghost predicate Servable(v: Service, s: Ledger, r: ActionRequest, p: Option<Principal>, e: Evaluated) {
    && WellFormed(s) && Evaluate(v, s, r, p) == Ok(e)
    && Refusal(s, SubmissionOf(e, r)).None? && Schedules.Placeable(s, SubmissionOf(e, r))
  }

  function AtOnce(): Moments {
    read => 0
  }

  /** Such runs there are: every servable request is served by a run from its ledger. */
  lemma ServableIsServed(v: Service, s: Ledger, r: ActionRequest, p: Option<Principal>, e: Evaluated)
    returns (xs: seq<System>, es: seq<Event>, k: nat)
    requires Servable(v, s, r, p, e)
    ensures xs != [] && xs[0] == System(s, []) && ServesRequest(v, xs, es, AtOnce(), 0, k, r, p, e)
  {
    hide EvaluatedAcross, Moves, Servable, Lodged, ActHash, AuthenticityFlaw, ReadsOf, IsRun;
    hide Refusal, Evaluate, SubmissionOf, Schedules.Placeable, Schedules.RpcAccepts;
    var q := SubmissionOf(e, r);
    ServableStands(v, s, r, p, e);
    var x0, x1 := System(s, []), System(s, [Worker(q, Lookup)]);
    Starts(v.ed, x0, x1, q);
    var xs', es' := LoneReads(v.ed, x1, q);
    var x3, call := LoneCall(v.ed, xs'[|es'|], q);
    xs, es, k := [x0] + xs' + [x3], [Start(q)] + es' + [call], |es'| + 1;
    Framed(v.ed, xs', es', x0, Start(q), x1, xs'[|es'|], call, x3);
    SameReads(v, xs, s, r, p, e);
    SameTurn(v, xs, s, r, p, e);
  }

  /** A run with a move before it and a move after it. */
  lemma Framed(ed: Verifier, xs: seq<System>, es: seq<Event>, x: System, e: Event, y: System,
               z: System, f: Event, end: System)
    requires Schedules.Connects(ed, KNOWN_CUTS, xs, es, y, z)
    requires Moves(ed, KNOWN_CUTS, x, e, y) && Moves(ed, KNOWN_CUTS, z, f, end) && x.workers == []
    ensures var ys, fs, k := [x] + xs + [end], [e] + es + [f], |es| + 1;
            && IsRun(ed, KNOWN_CUTS, ys, fs) && |ys| == |fs| + 1 && k + 1 == |fs|
            && ys[0] == x && fs[0] == e && ys[k] == z && fs[k] == f && ys[k + 1] == end
  {
    hide Moves;
    var ys, fs, k := [x] + xs + [end], [e] + es + [f], |es| + 1;
    assert ys[1] == y && ys[k] == z && ys[k + 1] == end && fs[k] == f;
    forall m | 0 <= m < |fs| ensures Moves(ed, KNOWN_CUTS, ys[m], fs[m], ys[m + 1]) {
      if 0 < m < k {
        assert Moves(ed, KNOWN_CUTS, xs[m - 1], es[m - 1], xs[m]);
      }
    }
  }

  lemma ServableStands(v: Service, s: Ledger, r: ActionRequest, p: Option<Principal>, e: Evaluated)
    requires Servable(v, s, r, p, e)
    ensures var q := SubmissionOf(e, r);
            && AuthenticityFlaw(v.ed, q).None? && q.decision.cut == HistoryCut(s) && WellFormed(s)
            && Refusal(s, q).None? && Schedules.Placeable(s, q)
    ensures EvaluatedAcross(v, read => s, r, p, e)
  {
    hide Evaluate, EvaluatedAcross, Refusal, GovernanceFlaw, Unobstructed, Schedules.RpcAccepts, ActHash;
    hide AuthenticityFlaw;
    StillReadsEvaluate(v, s, r, p, e);
    AllowedIsAuthentic(v, s, r, p, e);
  }

  lemma Starts(ed: Verifier, x: System, y: System, q: Submission)
    requires AuthenticityFlaw(ed, q).None? && q.decision.cut == HistoryCut(x.db)
    requires x.workers == [] && y == System(x.db, [Worker(q, Lookup)])
    ensures Moves(ed, KNOWN_CUTS, x, Start(q), y)
  {
    hide AuthenticityFlaw;
    assert x.workers + [Worker(q, Lookup)] == y.workers;
  }

  lemma SameReads(v: Service, xs: seq<System>, s: Ledger, r: ActionRequest, p: Option<Principal>, e: Evaluated)
    requires xs != [] && xs[0].db == s && EvaluatedAcross(v, read => s, r, p, e)
    ensures EvaluatedAcross(v, ReadsOf(xs, AtOnce()), r, p, e)
  {
    hide IsClosedCut, Registered, Resolve, Authorized, CommandOf, ContextOf, DerivedKeys, ResolveRequester, PayloadFlaw;
    var at := ReadsOf(xs, AtOnce());
    assert forall read :: at(read) == s;
  }

  lemma SameTurn(v: Service, xs: seq<System>, s: Ledger, r: ActionRequest, p: Option<Principal>, e: Evaluated)
    requires xs != [] && xs[0].db == s && Servable(v, s, r, p, e)
    ensures TurnsToGate(ReadsOf(xs, AtOnce()), e)
  {
    hide Refusal, GovernanceFlaw, SettledBefore, Servable, HasConsequence, Unobstructed, Schedules.RpcAccepts;
    ServableStands(v, s, r, p, e);
    AllowedKeepsType(v, s, r, p, e);
    UnrefusedIsOpen(s, SubmissionOf(e, r));
    NothingSettled(s, e);
    assert ReadsOf(xs, AtOnce())(SettledRead) == s && ReadsOf(xs, AtOnce())(CutBeforeRead) == s;
  }

  lemma UnrefusedIsOpen(s: Ledger, q: Submission)
    requires Refusal(s, q).None?
    ensures q.decision.outcome in PermittedOutcomes(q.actType)
    ensures IsLifecycle(q.actType) || !HasConsequence(s, CommandHash(q.command))
  {
    hide ProofFlaw, GovernanceFlaw, HasConsequence;
  }

  lemma NothingSettled(s: Ledger, e: Evaluated)
    requires IsLifecycle(e.actType) || !HasConsequence(s, CommandHash(e.command))
    ensures SettledBefore(s, e) == Ok(None)
  {
    hide ActsForCommand, CommandHash, Settled;
    SettledIfAny(ActsForCommand(s, CommandHash(e.command)), e);
  }

  lemma AllowedKeepsType(v: Service, s: Ledger, r: ActionRequest, p: Option<Principal>, e: Evaluated)
    requires Servable(v, s, r, p, e)
    ensures SubmissionOf(e, r).actType == e.actType && SubmissionOf(e, r).command == e.command
    ensures SubmissionOf(e, r).decision == e.decision
  {
    hide Servable;
  }

  lemma AllowedIsAuthentic(v: Service, s: Ledger, r: ActionRequest, p: Option<Principal>, e: Evaluated)
    requires Evaluate(v, s, r, p) == Ok(e)
    ensures AuthenticityFlaw(v.ed, SubmissionOf(e, r)).None?
  {
    hide Evaluate, Governed, Attributed;
    EvaluationEstablishes(v, s, r, p);
  }

  lemma LoneReads(ed: Verifier, x: System, q: Submission) returns (xs: seq<System>, es: seq<Event>)
    requires x.workers == [Worker(q, Lookup)] && Refusal(x.db, q).None? && Schedules.Placeable(x.db, q)
    ensures Schedules.Connects(ed, KNOWN_CUTS, xs, es, x, System(Lodged(x.db, q), [Worker(q, CallRpc)]))
    ensures ActHash(q) !in Lodged(x.db, q).acts && Schedules.RpcAccepts(Lodged(x.db, q), q)
  {
    hide Refusal, GovernanceFlaw, Unobstructed, Schedules.RpcAccepts, ActHash, Lodged;
    hide Schedules.Presentable, Moves;
    var y := System(x.db, [Worker(q, CurrentCut)]);
    var z := System(Lodged(x.db, q), [Worker(q, CallRpc)]);
    Schedules.Presents(x.db, q);
    Schedules.ReadsProof(ed, KNOWN_CUTS, x, 0, q, Lookup);
    assert Schedules.WithWorker(x, 0, Worker(q, CurrentCut)) == y;
    Schedules.ReachesCall(ed, KNOWN_CUTS, y, 0, q);
    assert y.workers[0 := Worker(q, CallRpc)] == z.workers;
    Schedules.ReachesOn(ed, KNOWN_CUTS, x, y, z);
    xs, es :| Schedules.Connects(ed, KNOWN_CUTS, xs, es, x, z);
    LodgedActs(x.db, q);
  }

  lemma LodgedActs(s: Ledger, q: Submission)
    ensures Lodged(s, q).acts == s.acts
  {
  }

  lemma LoneCall(ed: Verifier, x: System, q: Submission) returns (y: System, call: Event)
    requires x.workers == [Worker(q, CallRpc)] && ActHash(q) !in x.db.acts && Schedules.RpcAccepts(x.db, q)
    ensures call.Call? && call.i == 0 && Moves(ed, KNOWN_CUTS, x, call, y) && ActHash(q) in y.db.acts
  {
    hide RpcRefusal, CanonicalValue, ReadStep, WriteStep;
    var cut, registryCut :| Schedules.RpcAcceptsAs(x.db, q, cut, registryCut);
    var a := RpcArgsOf(q, cut, registryCut);
    call := Call(0, cut, registryCut);
    y := System(Append(x.db, RowToAct(a), a.canon), x.workers[0 := Worker(q, Done(Ok(RowToAct(a))))]);
  }

  // --- what is settled stays settled ---

  lemma PrefixRun(ed: Verifier, xs: seq<System>, es: seq<Event>, k: nat)
    requires IsRun(ed, KNOWN_CUTS, xs, es) && k <= |es|
    ensures IsRun(ed, KNOWN_CUTS, xs[..k + 1], es[..k])
  {
    hide Moves;
    forall m | 0 <= m < k ensures Moves(ed, KNOWN_CUTS, xs[..k + 1][m], es[..k][m], xs[..k + 1][m + 1]) {
      assert Moves(ed, KNOWN_CUTS, xs[m], es[m], xs[m + 1]);
    }
  }

  /** Once a Command has its consequence, any later look at what it has settled, whatever was committed
      in between by whomever, finds that very Act for a request of the same kind and a conflict for any
      other. */
  lemma SettledForGood(ed: Verifier, xs: seq<System>, es: seq<Event>, j: nat, k: nat, a: Act, e: Evaluated)
    requires IsRun(ed, KNOWN_CUTS, xs, es) && WellFormed(xs[0].db) && SingleConsequence(xs[0].db) && j <= k <= |es|
    requires a.hash in xs[j].db.acts && xs[j].db.acts[a.hash] == a && !IsLifecycle(a.actType)
    requires a.commandHash == CommandHash(e.command) && !IsLifecycle(e.actType)
    ensures SettledBefore(xs[k].db, e) == if SameConsequence(a, e) then Ok(Some(a)) else Err(Conflict)
  {
    hide Moves, SameConsequence, CommandHash, Lawful, SingleConsequence, SettledBefore;
    RunGrows(ed, KNOWN_CUTS, xs, es, j, k);
    PrefixRun(ed, xs, es, k);
    ConcurrentHistoryLawful(ed, KNOWN_CUTS, xs[..k + 1], es[..k]);
    SettledIsTheConsequence(xs[k].db, e, a);
  }

  // --- the answer, and the same answer again ---

  /** A served request is answered with its evaluation and the Act it placed, not as a replay. */
  lemma ServedIsAnswered(v: Service, xs: seq<System>, es: seq<Event>, moments: Moments, j: nat, k: nat,
                         r: ActionRequest, p: Option<Principal>, e: Evaluated)
    requires ServesRequest(v, xs, es, moments, j, k, r, p, e)
    ensures Answer(ReadsOf(xs, moments), e, Ok(ActOf(SubmissionOf(e, r)))) == Ok((e, ActOf(SubmissionOf(e, r))))
  {
    hide IsRun, EvaluatedAcross, SettledBefore, CanonicalValue;
    PresentIsUnplaced(ReadsOf(xs, moments)(CutBeforeRead), SubmissionOf(e, r));
  }

  /** A later request for the Command of a consequence, by its own evaluation and its own reads. */
  ghost predicate AsksAgain(v: Service, xs: seq<System>, moments: Moments, since: nat,
                            r: ActionRequest, p: Option<Principal>, e: Evaluated, command: Command) {
    && since <= moments(SettledRead) < |xs| && EvaluatedAcross(v, ReadsOf(xs, moments), r, p, e)
    && e.decision.outcome == Allow && !IsLifecycle(e.actType) && CommandHash(e.command) == CommandHash(command)
  }

  /** In every interleaved run: once a consequential request has been served, any later allowed request
      for its Command, whenever its other reads happened, never turns to the gate.  It is answered with
      that very Act, as a replay, if it asks for the same Act type in the same Context, and with a
      conflict if it asks for anything else. */
  lemma InterleavedIdempotence(v: Service, xs: seq<System>, es: seq<Event>, moments: Moments, j: nat, k: nat,
                               r: ActionRequest, p: Option<Principal>, e: Evaluated,
                               moments': Moments, r': ActionRequest, p': Option<Principal>, e': Evaluated,
                               gate: Result<Act, CommitError>)
    requires ServesRequest(v, xs, es, moments, j, k, r, p, e) && SingleConsequence(xs[0].db) && !IsLifecycle(e.actType)
    requires AsksAgain(v, xs, moments', k + 1, r', p', e', e.command)
    ensures xs != []
    ensures var act := ActOf(SubmissionOf(e, r));
            Answer(ReadsOf(xs, moments'), e', gate) ==
              if e'.actType == e.actType && e'.context == e.context then Ok((Replay(e', Allow, act), act))
              else Err(Conflict)
    ensures !TurnsToGate(ReadsOf(xs, moments'), e')
  {
    hide IsRun, EvaluatedAcross, CanonicalValue, SettledBefore, Attributed, ContextAttributes, AllowedByEveryRule;
    hide SameConsequence, ServesRequest;
    var act, m := ActOf(SubmissionOf(e, r)), moments'(SettledRead);
    ServedPlaced(v, xs, es, moments, j, k, r, p, e);
    PartiesAttributed(v, ReadsOf(xs, moments), r, p, e);
    PartiesAttributed(v, ReadsOf(xs, moments'), r', p', e');
    SameCommandSameParts(e, e');
    ServedIsSame(e, r);
    SameConsequenceExactly(act, e, e');
    SettledForGood(v.ed, xs, es, k + 1, m, act, e');
    assert ReadsOf(xs, moments')(SettledRead) == xs[m].db;
  }

  lemma ServedPlaced(v: Service, xs: seq<System>, es: seq<Event>, moments: Moments, j: nat, k: nat,
                     r: ActionRequest, p: Option<Principal>, e: Evaluated)
    requires ServesRequest(v, xs, es, moments, j, k, r, p, e)
    ensures var act := ActOf(SubmissionOf(e, r));
            && k + 1 < |xs| && act.hash in xs[k + 1].db.acts && xs[k + 1].db.acts[act.hash] == act
            && act.commandHash == CommandHash(e.command) && act.actType == e.actType
    ensures |xs| == |es| + 1 && IsRun(v.ed, KNOWN_CUTS, xs, es) && WellFormed(xs[0].db)
    ensures xs != [] && EvaluatedAcross(v, ReadsOf(xs, moments), r, p, e)
  {
    hide IsRun, EvaluatedAcross, CanonicalValue, TurnsToGate, ContextAttributes, AllowedByEveryRule, FirstSeen;
    SeenKnown(v, xs, es, moments, j, k, r, p, e);
    InterleavedRequestGoverned(v, xs, es, moments, j, k, r, p, e, k);
  }

  lemma ServedIsSame(e: Evaluated, r: ActionRequest)
    ensures e.identity.hash == e.command.identityHash ==> SameConsequence(ActOf(SubmissionOf(e, r)), e)
  {
    hide CanonicalValue;
  }
}

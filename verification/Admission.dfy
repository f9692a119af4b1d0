/**
 What the authority service places, said of the request: which requests become Acts, and what those Acts
 record (service/authority.py).
 */
module Admission {
  import opened Canon
  import opened Types
  import opened Ledgers
  import opened Gate
  import opened History
  import opened Consequence
  import opened Requests
  import opened Authority
  import opened ServiceLaws
  import opened Idempotence
  import opened Concurrency
  import opened Acceptance
  import opened Interleaving
  import opened Evaluations

  // --- what the Act records ---

  lemma EvaluationStands(v: Service, s: Ledger, r: ActionRequest, p: Option<Principal>, e: Evaluated)
    requires Evaluate(v, s, r, p) == Ok(e)
    ensures Grounds(v, s, r, p, e)
  {
    hide Evaluate, Grounds;
    assert Because(e, e.decision.reason) == e;
    EvaluationExactly(v, s, r, p, e);
  }

  /** A newly placed Act records what was asked for and what was decided, at the end of the history it was
      decided on; the evaluation returned with it has its grounds in the ledger. */
  lemma FreshActRecords(v: Service, s: Ledger, r: ActionRequest, p: Option<Principal>)
    requires WellFormed(s) && Authority.Commit(v, s, r, p).1.Ok?
    requires Authority.Commit(v, s, r, p).1.value.1.hash !in s.acts
    ensures var (t, result) := Authority.Commit(v, s, r, p);
            var (e, act) := result.value;
            && Records(act, r) && Decides(act, e) && Grounds(v, s, r, p, e)
            && act.decisionCut == s.acts.Keys && t.order == s.order + [act.hash] && t.acts == s.acts[act.hash := act]
  {
    hide Authority.Commit, Evaluate, Grounds, Records, Decides, Accepted, Placed, ActOf, SubmissionOf, WellFormed;
    hide CommitEvaluated;
    var e := FreshActEvaluated(v, s, r, p);
    EvaluationStands(v, s, r, p, e);
    PlacedFields(s, Authority.Commit(v, s, r, p).0, r, e, Authority.Commit(v, s, r, p).1.value.1);
  }

  lemma PlacedFields(s: Ledger, t: Ledger, r: ActionRequest, e: Evaluated, act: Act)
    requires Placed(s, t, r, e, act)
    ensures act == ActOf(SubmissionOf(e, r)) && act.decisionCut == s.acts.Keys
    ensures t.order == s.order + [act.hash] && t.acts == s.acts[act.hash := act]
  {
    hide CanonicalValue, Justified;
  }

  /** Among concurrent workers too: the Act that a served request adds, and no other event's, records what
      was asked for and what was decided; its signature is the performer's, as read. */
  lemma ServedActRecords(v: Service, xs: seq<System>, es: seq<Event>, moments: Moments, j: nat, k: nat,
                         r: ActionRequest, p: Option<Principal>, e: Evaluated, h: Text)
    requires ServesRequest(v, xs, es, moments, j, k, r, p, e)
    requires h !in xs[k].db.acts && h in xs[k + 1].db.acts
    ensures xs != []
    ensures var act := xs[k + 1].db.acts[h];
            && act.hash == h && Records(act, r) && Decides(act, e) && act.decisionCut == xs[k].db.acts.Keys
            && Commands(r, e.command)
            && v.ed(e.identity.publicKey, e.command.signature, SigningValue(e.command))
            && e.identity.hash == r.identityHash
  {
    hide IsRun, EvaluatedAcross, CanonicalValue, TurnsToGate, ContextAttributes, AllowedByEveryRule, FirstSeen;
    hide Records, Decides, Commands;
    SeenKnown(v, xs, es, moments, j, k, r, p, e);
    InterleavedRequestGoverned(v, xs, es, moments, j, k, r, p, e, k);
    PartiesAttributed(v, ReadsOf(xs, moments), r, p, e);
    ReadRequest(v, ReadsOf(xs, moments), r, p, e);
    SubmissionRecords(e, r);
    assert ActOf(SubmissionOf(e, r)).hash == ActHash(SubmissionOf(e, r));
  }

  lemma ReadRequest(v: Service, at: Reads, r: ActionRequest, p: Option<Principal>, e: Evaluated)
    requires EvaluatedAcross(v, at, r, p, e)
    ensures Commands(r, e.command) && e.actType == r.actType && e.authChain == r.authChain
    ensures v.ed(e.identity.publicKey, e.command.signature, SigningValue(e.command))
    ensures e.command.identityHash == r.identityHash
  {
    hide CutsRead, TypesRead, RulesRead, CommandOf;
    CommandExactly(r, e.command);
  }

  // --- the root's rule ---

  /** Where the root's rule governs, anybody else is denied. */
  lemma OthersAreDenied(v: Service, registry: seq<Entry>, e: Evaluated)
    requires RootGoverns(v) && Decided(v, registry, e)
    ensures v.root.Some? && (e.identity.hash != v.root.value ==> e.decision.outcome == Deny)
  {
    var name := Plain("genesis.root_authority");
    var k :| 0 <= k < |v.ruleNames| && v.ruleNames[k] == name;
    assert RunsAs(v, registry, v.ruleNames[k], e.decision.registryCut, e.decision.ruleHashes[k]);
    assert e.identity.hash != v.root.value ==> Judges(v, e, name, Deny);
  }

  /** Where the root's rule governs, a request that evaluates for any other Identity evaluates to a denial, and
      is refused, with nothing written, unless it asks for that denial to be recorded, or for a resolution. */
  lemma OthersAreRefused(v: Service, s: Ledger, r: ActionRequest, p: Option<Principal>)
    requires RootGoverns(v) && Evaluate(v, s, r, p).Ok? && v.root != Some(r.identityHash)
    ensures Evaluate(v, s, r, p).value.decision.outcome == Deny
    ensures r.actType !in {"CommandDenied", "AuthorizationResolved"} ==>
              Authority.Commit(v, s, r, p) == (s, Err(Unauthorized))
  {
    hide Evaluate, Commands, Cuts, Parties, Speakable, Decided;
    var e := Evaluate(v, s, r, p).value;
    EvaluationStands(v, s, r, p, e);
    OthersAreDenied(v, s.registry, e);
    PerformerIsNamed(v, s, r, p, e);
  }

  lemma PerformerIsNamed(v: Service, s: Ledger, r: ActionRequest, p: Option<Principal>, e: Evaluated)
    requires Grounds(v, s, r, p, e)
    ensures e.identity.hash == r.identityHash
  {
    hide Cuts, Parties, Speakable, Resolves, Judged;
  }

  /** Where the root's rule governs, every consequence the service newly places is the root's. */
  lemma ConsequenceIsTheRoots(v: Service, s: Ledger, r: ActionRequest, p: Option<Principal>)
    requires WellFormed(s) && RootGoverns(v) && !IsLifecycle(r.actType)
    requires Authority.Commit(v, s, r, p).1.Ok? && Authority.Commit(v, s, r, p).1.value.1.hash !in s.acts
    ensures v.root == Some(Authority.Commit(v, s, r, p).1.value.1.identityHash)
  {
    hide Authority.Commit, Resolve, AllAllow, WellFormed;
    NewConsequenceIsGoverned(v, s, r, p);
  }

  /** And so is every consequence that a request served among concurrent workers adds. */
  lemma ServedConsequenceIsTheRoots(v: Service, xs: seq<System>, es: seq<Event>, moments: Moments, j: nat, k: nat,
                                    r: ActionRequest, p: Option<Principal>, e: Evaluated, h: Text)
    requires ServesRequest(v, xs, es, moments, j, k, r, p, e) && RootGoverns(v) && !IsLifecycle(r.actType)
    requires h !in xs[k].db.acts && h in xs[k + 1].db.acts
    ensures v.root == Some(xs[k + 1].db.acts[h].identityHash)
  {
    hide IsRun, CanonicalValue, ContextAttributes, FirstSeen, EvaluatedAcross, Resolve, AllAllow, TurnsToGate;
    SeenKnown(v, xs, es, moments, j, k, r, p, e);
    InterleavedRequestGoverned(v, xs, es, moments, j, k, r, p, e, k);
    ReadRequest(v, ReadsOf(xs, moments), r, p, e);
  }

  // --- which requests become Acts ---

  /** A request whose evaluation stands is newly placed exactly when its payload finds its place and the
      gate's every condition is met then; the ledger is what the payload and the gate's writes make it. */
  lemma FreshExactly(v: Service, s: Ledger, r: ActionRequest, p: Option<Principal>, e: Evaluated)
    requires WellFormed(s) && Evaluate(v, s, r, p) == Ok(e)
    ensures var (t, result) := Authority.Commit(v, s, r, p);
            var s1, q := WithPayload(s, r), SubmissionOf(e, r);
            && (result.Ok? && result.value.1.hash !in s.acts
                <==> s1.Some? && forall refusal: CommitError :: Meets(v.ed, s1.value, q, refusal))
            && (result.Ok? && result.value.1.hash !in s.acts ==>
                  t == AfterPlacing(s1.value, q) && result.value == (e, ActOf(q)))
  {
    hide Evaluate, Authority.Commit, WithPayload, SubmissionOf, Meets, AfterPlacing, ActOf, ActHash, CommitEvaluated;
    hide Prepared, Governed, Attributed;
    EvaluationEstablishes(v, s, r, p);
    PayloadFits(v, s, r, e);
    if WithPayload(s, r).Some?
       && forall refusal: CommitError :: Meets(v.ed, WithPayload(s, r).value, SubmissionOf(e, r), refusal)
    {
      MetIsPlaced(v, s, r, p, e);
    }
    if Authority.Commit(v, s, r, p).1.Ok? && Authority.Commit(v, s, r, p).1.value.1.hash !in s.acts {
      PlacedWasMet(v, s, r, p, e);
    }
  }

  lemma PayloadFits(v: Service, s: Ledger, r: ActionRequest, e: Evaluated)
    requires WellFormed(s) && Prepared(v, s, r, e)
    ensures PayloadFlaw(s, r).None?
    ensures WithPayload(s, r).Some? ==>
              var s1 := WithPayload(s, r).value; WellFormed(s1) && s1.acts == s.acts && s1.order == s.order
  {
    hide AuthenticityFlaw, RegistryFlaw, CommandOf;
  }

  lemma MetIsOpen(v: Service, s: Ledger, s1: Ledger, e: Evaluated, r: ActionRequest)
    requires WellFormed(s) && s1.acts == s.acts && s1.order == s.order
    requires forall refusal: CommitError :: Meets(v.ed, s1, SubmissionOf(e, r), refusal)
    ensures e.decision.outcome in PermittedOutcomes(e.actType) && e.decision.cut == HistoryCut(s)
    ensures SettledBefore(s, e) == Ok(None) && ActHash(SubmissionOf(e, r)) !in s.acts
  {
    hide Meets, SettledBefore, PermittedOutcomes, CommandHash, ActHash, ProofFlaw;
    var q := SubmissionOf(e, r);
    assert Meets(v.ed, s1, q, OutcomeNotPermitted) && Meets(v.ed, s1, q, AlreadyConsequential);
    assert Meets(v.ed, s1, q, HistoryAdvanced);
    OutcomeMet(v.ed, s1, q);
    ConsequenceMet(v.ed, s1, q);
    NothingSettled(s, e);
    PresentIsUnplaced(s, q);
  }

  lemma MetIsPlaced(v: Service, s: Ledger, r: ActionRequest, p: Option<Principal>, e: Evaluated)
    requires WellFormed(s) && Evaluate(v, s, r, p) == Ok(e) && WithPayload(s, r).Some?
    requires var s1 := WithPayload(s, r).value; WellFormed(s1) && s1.acts == s.acts && s1.order == s.order
    requires forall refusal: CommitError :: Meets(v.ed, WithPayload(s, r).value, SubmissionOf(e, r), refusal)
    ensures var s1, q := WithPayload(s, r).value, SubmissionOf(e, r);
            Authority.Commit(v, s, r, p) == (AfterPlacing(s1, q), Ok((e, ActOf(q)))) && ActOf(q).hash !in s.acts
  {
    hide Evaluate, WithPayload, SubmissionOf, Meets, AfterPlacing, SettledBefore, ActHash, Gate.Commit, WellFormed;
    hide CanonicalValue;
    var s1, q := WithPayload(s, r).value, SubmissionOf(e, r);
    MetIsOpen(v, s, s1, e, r);
    GateAnswers(v.ed, s1, q);
    assert ActOf(q).hash == ActHash(q);
  }

  lemma PlacedWasMet(v: Service, s: Ledger, r: ActionRequest, p: Option<Principal>, e: Evaluated)
    requires WellFormed(s) && Evaluate(v, s, r, p) == Ok(e) && PayloadFlaw(s, r).None?
    requires WithPayload(s, r).Some? ==>
               var s1 := WithPayload(s, r).value; WellFormed(s1) && s1.acts == s.acts && s1.order == s.order
    requires Authority.Commit(v, s, r, p).1.Ok? && Authority.Commit(v, s, r, p).1.value.1.hash !in s.acts
    ensures WithPayload(s, r).Some?
    ensures var s1, q := WithPayload(s, r).value, SubmissionOf(e, r);
            forall refusal: CommitError :: Meets(v.ed, s1, q, refusal)
  {
    hide Evaluate, WithPayload, SubmissionOf, Meets, AfterPlacing, SettledBefore, ActHash, Gate.Commit, WellFormed;
    hide CanonicalValue, CommitEvaluated, AuthenticityFlaw, PayloadFlaw;
    FreshWasAdmitted(v, s, r, e);
    var s1, q := WithPayload(s, r).value, SubmissionOf(e, r);
    GateNames(v.ed, s1, q);
    GateAnswers(v.ed, s1, q);
  }

  lemma GateNames(ed: Verifier, s: Ledger, q: Submission)
    requires WellFormed(s) && Gate.Commit(ed, s, q).1.Ok?
    ensures Gate.Commit(ed, s, q).1.value.hash == ActHash(q)
  {
    hide Gate.Commit, CanonicalValue, Justified;
    GatePlaces(ed, s, q, Gate.Commit(ed, s, q).0, Gate.Commit(ed, s, q).1.value);
  }

  // --- what an evaluation leaves open ---

  /** Every object is stored at the hash of its own kind and content. */
  predicate AllAddressed(objects: map<Text, Record>) {
    forall h | h in objects :: Addressed(h, objects[h])
  }

  /** Of the gate's conditions, those on outcome, consequence, review, cut and parents. */
  predicate LeftOpen(refusal: CommitError) {
    2 <= Turn(refusal) <= 10 || refusal.MissingParent?
  }

  lemma SlotsFree(ed: Verifier, s: Ledger, q: Submission)
    requires AllAddressed(s.objects)
    ensures Meets(ed, s, q, CasCollision) && Meets(ed, s, q, StoreRejected)
  {
    hide CanonicalValue, SigningValue, ContextValue;
  }

  lemma PayloadLands(s: Ledger, r: ActionRequest)
    requires AllAddressed(s.objects) && PayloadFlaw(s, r).None?
    ensures WithPayload(s, r).Some?
    ensures var s1 := WithPayload(s, r).value;
            && AllAddressed(s1.objects) && SameOn(s.objects, s1.objects) && s1.registry == s.registry
            && s1.identities == s.identities && r.payloadHash in s1.objects
            && (r.payload.Some? ==> s1.objects[r.payloadHash] == Record(Canonical(r.payload.value), "payload"))
  {
  }

  lemma WordsMet(v: Service, s: Ledger, s1: Ledger, r: ActionRequest, p: Option<Principal>, e: Evaluated)
    requires Grounds(v, s, r, p, e) && s1.registry == s.registry && r.payloadHash in s1.objects
    ensures var q := SubmissionOf(e, r);
            && Meets(v.ed, s1, q, UnregisteredCommandType) && Meets(v.ed, s1, q, UnregisteredActType)
            && Meets(v.ed, s1, q, UnregisteredContextType) && Meets(v.ed, s1, q, MissingPayload)
  {
    hide Cuts, Parties, Decided, Enters, CommandHash;
  }

  lemma RuleEnters(v: Service, registry: seq<Entry>, name: Text, cut: set<Text>, hash: Text)
    requires RunsAs(v, registry, name, cut, hash)
    ensures exists e | e in registry :: Enters(e, "rule", hash, cut)
  {
    var i: nat :| Runs(v, registry, name, cut, i) && registry[i].hash == hash;
    assert registry[i] in registry && Enters(registry[i], "rule", hash, cut);
  }

  lemma RulesStand(v: Service, s: Ledger, s1: Ledger, r: ActionRequest, p: Option<Principal>, e: Evaluated)
    requires Grounds(v, s, r, p, e) && s1.registry == s.registry
    ensures Meets(v.ed, s1, SubmissionOf(e, r), NoRule) && Meets(v.ed, s1, SubmissionOf(e, r), UnregisteredRule)
  {
    hide Cuts, Parties, Commands, Speakable, Judged, Enters, RunsAs, CommandHash;
    var hashes := e.decision.ruleHashes;
    forall h | h in hashes ensures exists f | f in s.registry :: Enters(f, "rule", h, e.decision.registryCut) {
      var k :| 0 <= k < |hashes| && hashes[k] == h;
      RuleEnters(v, s.registry, v.ruleNames[k], e.decision.registryCut, h);
    }
  }

  lemma SignerMet(v: Service, s: Ledger, s1: Ledger, r: ActionRequest, p: Option<Principal>, e: Evaluated)
    requires Grounds(v, s, r, p, e)
    ensures Meets(v.ed, s1, SubmissionOf(e, r), IdentityMismatch)
    ensures Meets(v.ed, s1, SubmissionOf(e, r), InvalidSignature)
  {
    hide Cuts, Commands, Speakable, Resolves, Judged, CommandHash, SigningValue;
  }

  /** Over a store whose objects are all addressed by their content, an evaluation leaves open only whether
      its outcome fits the Act, whether the Command has a consequence, what the chain must show of review,
      whether the cut is still the history, and whether the parents are known: met, its Act is placed. */
  lemma PlacedUnlessOpen(v: Service, s: Ledger, r: ActionRequest, p: Option<Principal>, e: Evaluated)
    requires WellFormed(s) && AllAddressed(s.objects) && Evaluate(v, s, r, p) == Ok(e)
    ensures WithPayload(s, r).Some?
    ensures var (t, result) := Authority.Commit(v, s, r, p);
            var s1, q := WithPayload(s, r).value, SubmissionOf(e, r);
            result.Ok? && result.value.1.hash !in s.acts
            <==> forall refusal: CommitError | LeftOpen(refusal) :: Meets(v.ed, s1, q, refusal)
  {
    hide Evaluate, Authority.Commit, WithPayload, SubmissionOf, Meets, Grounds, CommitEvaluated, Prepared, AllAddressed;
    hide AfterPlacing, ActOf, Governed, Attributed;
    EvaluationEstablishes(v, s, r, p);
    PayloadFits(v, s, r, e);
    PayloadLands(s, r);
    var s1, q := WithPayload(s, r).value, SubmissionOf(e, r);
    EvaluationStands(v, s, r, p, e);
    WordsMet(v, s, s1, r, p, e);
    RulesStand(v, s, s1, r, p, e);
    SignerMet(v, s, s1, r, p, e);
    SlotsFree(v.ed, s1, q);
    FreshExactly(v, s, r, p, e);
    forall refusal: CommitError | !LeftOpen(refusal) ensures Meets(v.ed, s1, q, refusal) {
      assert Turn(refusal) < 2 || Turn(refusal) > 10;
    }
  }

  // --- refusals ---

  /** A request that evaluates is refused for its outcome exactly if that does not fit the Act asked for. */
  lemma UnfitExactly(v: Service, s: Ledger, r: ActionRequest, p: Option<Principal>, e: Evaluated)
    requires Evaluate(v, s, r, p) == Ok(e)
    ensures Authority.Commit(v, s, r, p) == (s, Err(Unauthorized))
       <==> !Meets(v.ed, s, SubmissionOf(e, r), OutcomeNotPermitted)
  {
    hide Evaluate, Meets, Gate.Commit, WithPayload, PermittedOutcomes, Settled, CommandHash, ActsForCommand;
    OutcomeMet(v.ed, s, SubmissionOf(e, r));
    SettledErrs(ActsForCommand(s, CommandHash(e.command)), e);
  }

  lemma {:induction false} SettledErrs(acts: seq<Act>, e: Evaluated)
    ensures Settled(acts, e).Err? ==> Settled(acts, e) == Err(Conflict)
  {
    if acts != [] {
      SettledErrs(acts[1..], e);
    }
  }

  /** A consequential request for a Command that has its consequence gets that Act, with the cuts and rules
      it was placed under, if type, Identity, parents, Context and payload are those asked for, and is a
      conflict otherwise; nothing is written. */
  lemma SettledAnswers(v: Service, s: Ledger, r: ActionRequest, p: Option<Principal>, e: Evaluated, h: Text)
    requires WellFormed(s) && SingleConsequence(s) && Evaluate(v, s, r, p) == Ok(e) && !IsLifecycle(e.actType)
    requires Meets(v.ed, s, SubmissionOf(e, r), OutcomeNotPermitted)
    requires h in s.acts && s.acts[h].commandHash == CommandHash(e.command) && !IsLifecycle(s.acts[h].actType)
    ensures var (t, result) := Authority.Commit(v, s, r, p);
            var a := s.acts[h];
            && t == s
            && (result.Ok? <==> && a.actType == r.actType && a.identityHash == r.identityHash && a.parents == r.parents
                                && a.contextHash == ContextHash(e.context) && a.payloadHash == r.payloadHash)
            && (result.Err? ==> result.error == Conflict)
            && (result.Ok? ==>
                  && result.value.1 == a && result.value.0.decision.outcome == Allow
                  && result.value.0.decision.cut == a.decisionCut && result.value.0.decision.ruleHashes == a.ruleHashes
                  && result.value.0.decision.registryCut == a.registryCut)
  {
    hide Evaluate, Meets, Gate.Commit, Admit, CommandHash, ActsForCommand, Cuts, Parties, Speakable, Resolves, Judged;
    hide SingleConsequence, SettledBefore;
    EvaluationStands(v, s, r, p, e);
    OutcomeMet(v.ed, s, SubmissionOf(e, r));
    SettledIsTheConsequence(s, e, s.acts[h]);
  }

  /** Where nothing is settled, a request whose outcome fits is a conflict exactly if history is no longer
      its cut; nothing is written. */
  lemma OvertakenExactly(v: Service, s: Ledger, r: ActionRequest, p: Option<Principal>, e: Evaluated)
    requires WellFormed(s) && Evaluate(v, s, r, p) == Ok(e)
    requires Meets(v.ed, s, SubmissionOf(e, r), OutcomeNotPermitted)
    requires Meets(v.ed, s, SubmissionOf(e, r), AlreadyConsequential)
    ensures Authority.Commit(v, s, r, p) == (s, Err(Conflict)) <==> e.decision.cut != s.acts.Keys
  {
    hide Evaluate, Meets, Gate.Commit, WithPayload, SettledBefore, CommandHash, HasConsequence;
    OutcomeMet(v.ed, s, SubmissionOf(e, r));
    ConsequenceMet(v.ed, s, SubmissionOf(e, r));
    NothingSettled(s, e);
  }

  lemma RefusedByGate(v: Service, s: Ledger, r: ActionRequest, p: Option<Principal>, e: Evaluated,
                      refusal: CommitError)
    requires Evaluate(v, s, r, p) == Ok(e) && Authority.Commit(v, s, r, p).1 == Err(Refused(refusal))
    ensures WithPayload(s, r).Some? && e.decision.cut == HistoryCut(s)
    ensures Gate.Commit(v.ed, WithPayload(s, r).value, SubmissionOf(e, r)).1 == Err(refusal)
  {
    hide Evaluate, Gate.Commit, WithPayload, Settled, ActsForCommand, CommandHash, PermittedOutcomes;
    SettledErrs(ActsForCommand(s, CommandHash(e.command)), e);
  }

  /** Past these, the service passes on the gate's refusal: the first condition unmet. */
  lemma RefusedForFirstUnmet(v: Service, s: Ledger, r: ActionRequest, p: Option<Principal>, e: Evaluated,
                             refusal: CommitError)
    requires WellFormed(s) && Evaluate(v, s, r, p) == Ok(e)
    requires Authority.Commit(v, s, r, p).1 == Err(Refused(refusal))
    ensures WithPayload(s, r).Some?
    ensures var s1, q := WithPayload(s, r).value, SubmissionOf(e, r);
            && !Meets(v.ed, s1, q, refusal)
            && forall other: CommitError | Turn(other) < Turn(refusal) :: Meets(v.ed, s1, q, other)
  {
    hide Evaluate, Meets, Gate.Commit, Authority.Commit, WithPayload, CanonicalValue, Prepared, Governed, Attributed;
    EvaluationEstablishes(v, s, r, p);
    PayloadFits(v, s, r, e);
    RefusedByGate(v, s, r, p, e, refusal);
    PresentIsUnplaced(s, SubmissionOf(e, r));
    GateAnswers(v.ed, WithPayload(s, r).value, SubmissionOf(e, r));
  }
}

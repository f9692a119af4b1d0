/**
 What the gate and the commit RPC answer, said of Acts, entries and objects alone: for each refusal
 the condition whose lack it reports, and the order in which the conditions are asked
 (kernel/commit.py, the act_occurrence_uniqueness migration).
 */
module Acceptance {
  import opened Canon
  import opened Types
  import opened Ledgers
  import opened Gate
  import opened History
  import opened Consequence
  import opened Postgres

  // --- the gate ---

  /** The object stored at a payload hash is a JSON object naming this Command. */
  predicate Names(objects: map<Text, Record>, payload: Text, command: Text) {
    && payload in objects && Loads(objects[payload].canon).Some?
    && var value := Loads(objects[payload].canon).value;
    && value.Obj? && "reviewed_command_hash" in value.fields && value.fields["reviewed_command_hash"] == Str(command)
  }

  /** An entry of this kind, under this name or hash, born in the cut. */
  predicate Enters(e: Entry, kind: string, name: Text, cut: set<Text>) {
    e.kind == kind && (e.name == name || e.hash == name) && e.bornAt in cut
  }

  /** What the gate asks of a new occurrence, one condition for each of its refusals. */
  ghost predicate Meets(ed: Verifier, s: Ledger, q: Submission, refusal: CommitError) {
    var command, cut := CommandHash(q.command), q.decision.registryCut;
    match refusal
    case IdentityMismatch => q.identity.hash == q.command.identityHash
    case InvalidSignature => ed(q.identity.publicKey, q.command.signature, SigningValue(q.command))
    case OutcomeNotPermitted =>
      if q.actType == "ReviewRequested" then q.decision.outcome == RequireReview
      else if q.actType == "CommandDenied" then q.decision.outcome == Deny
      else if q.actType == "AuthorizationResolved" then q.decision.outcome != RequireReview
      else q.decision.outcome == Allow
    case AlreadyConsequential =>
      !IsLifecycle(q.actType) ==>
        forall h | h in s.acts && s.acts[h].commandHash == command :: IsLifecycle(s.acts[h].actType)
    case NotAReviewCommand =>
      q.actType == "AuthorizationReviewed" ==> q.command.commandType == "ReviewAuthorization"
    case NoReviewTarget =>
      q.actType == "AuthorizationReviewed" ==> exists target :: Names(s.objects, q.command.payloadHash, target)
    case MissingReviewRequest =>
      q.actType == "AuthorizationResolved" ==>
        exists h | h in s.acts && h in q.authChain ::
          s.acts[h].actType == "ReviewRequested" && s.acts[h].commandHash == command
    case MissingReview =>
      q.actType == "AuthorizationResolved" ==>
        exists h | h in s.acts && h in q.authChain :: s.acts[h].actType == "AuthorizationReviewed"
    case ReviewsDifferentCommand =>
      q.actType == "AuthorizationResolved" ==>
        forall h | h in s.acts && h in q.authChain && s.acts[h].actType == "AuthorizationReviewed" ::
          Names(s.objects, s.acts[h].payloadHash, command)
    case UnresolvedReview =>
      !IsLifecycle(q.actType)
      && (exists h | h in s.acts :: s.acts[h].commandHash == command && s.acts[h].actType == "ReviewRequested") ==>
        exists h | h in s.acts && h in q.authChain ::
          s.acts[h].actType == "AuthorizationResolved" && s.acts[h].commandHash == command
    case HistoryAdvanced => forall h :: h in q.decision.cut <==> h in s.acts
    case UnregisteredCommandType =>
      exists e | e in s.registry :: Enters(e, "command_type", Plain(q.command.commandType), cut)
    case UnregisteredActType =>
      exists e | e in s.registry :: Enters(e, "act_type", Plain(q.actType), cut)
    case NoRule => |q.decision.ruleHashes| > 0
    case UnregisteredRule =>
      forall r | r in q.decision.ruleHashes :: exists e | e in s.registry :: Enters(e, "rule", r, cut)
    case UnregisteredContextType =>
      forall key | key in q.context.values ::
        exists e | e in s.registry :: Enters(e, "context_type", Plain(key), cut)
    case MissingPayload => q.command.payloadHash in s.objects
    case MissingParent => forall p | p in q.command.parents :: p in s.acts
    case CasCollision =>
      && (command in s.objects ==> s.objects[command] == Record(Canonical(SigningValue(q.command)), "command"))
      && (ContextHash(q.context) in s.objects ==>
            s.objects[ContextHash(q.context)] == Record(Canonical(ContextValue(q.context)), "context"))
    case StoreRejected =>
      ActHash(q) in s.objects ==> s.objects[ActHash(q)] == Record(Canonical(CanonicalValue(q)), "act")
  }

  /** The place of a refusal among the gate's questions. */
  function Turn(refusal: CommitError): nat {
    match refusal
    case IdentityMismatch => 0
    case InvalidSignature => 1
    case OutcomeNotPermitted => 2
    case AlreadyConsequential => 3
    case NotAReviewCommand => 4
    case NoReviewTarget => 5
    case MissingReviewRequest => 6
    case MissingReview => 7
    case ReviewsDifferentCommand => 8
    case UnresolvedReview => 9
    case HistoryAdvanced => 10
    case UnregisteredCommandType => 11
    case UnregisteredActType => 12
    case NoRule => 13
    case UnregisteredRule => 14
    case UnregisteredContextType => 15
    case MissingPayload => 16
    case MissingParent => 17
    case CasCollision => 18
    case StoreRejected => 19
  }

  /** The conditions with a turn in [from, to) are met. */
  ghost predicate MeetsTurns(ed: Verifier, s: Ledger, q: Submission, from: nat, to: nat) {
    forall e: CommitError | from <= Turn(e) < to :: Meets(ed, s, q, e)
  }

  /** A flaw is the first condition unmet of those with a turn in [from, to); there is none if all are met. */
  ghost predicate FirstUnmet(ed: Verifier, s: Ledger, q: Submission, from: nat, to: nat, flaw: Option<CommitError>) {
    match flaw
    case None => MeetsTurns(ed, s, q, from, to)
    case Some(e) => from <= Turn(e) < to && !Meets(ed, s, q, e) && MeetsTurns(ed, s, q, from, Turn(e))
  }

  lemma TargetNamed(objects: map<Text, Record>, payload: Text, command: Text)
    ensures ReviewedCommand(objects, payload) == Some(command) <==> Names(objects, payload, command)
  {
  }

  lemma AuthenticityAnswers(ed: Verifier, s: Ledger, q: Submission)
    ensures FirstUnmet(ed, s, q, 0, 2, AuthenticityFlaw(ed, q))
  {
    hide CanonicalValue, SigningValue;
  }

  /** The chain links a known Act of some kind exactly when the Acts it resolves to include one. */
  lemma LinksSome(s: Ledger, chain: seq<Text>, p: Act -> bool)
    ensures (exists a :: a in Linked(s.acts, chain) && p(a)) <==> exists h :: h in s.acts && h in chain && p(s.acts[h])
  {
    if a :| a in Linked(s.acts, chain) && p(a) {
      LinkedMembers(s.acts, chain, a);
    }
    if h :| h in s.acts && h in chain && p(s.acts[h]) {
      LinkedMembers(s.acts, chain, s.acts[h]);
    }
  }

  lemma RequestMet(ed: Verifier, s: Ledger, q: Submission)
    ensures Meets(ed, s, q, MissingReviewRequest)
       <==> (q.actType == "AuthorizationResolved" ==>
               exists a :: a in Linked(s.acts, q.authChain) && IsRequestFor(a, CommandHash(q.command)))
  {
    hide Linked, CommandHash;
    LinksSome(s, q.authChain, a => IsRequestFor(a, CommandHash(q.command)));
  }

  lemma ReviewMet(ed: Verifier, s: Ledger, q: Submission)
    ensures Meets(ed, s, q, MissingReview)
       <==> (q.actType == "AuthorizationResolved" ==> exists a :: a in Linked(s.acts, q.authChain) && IsReview(a))
  {
    hide Linked, CommandHash;
    LinksSome(s, q.authChain, a => IsReview(a));
  }

  lemma TargetsMet(ed: Verifier, s: Ledger, q: Submission)
    ensures Meets(ed, s, q, ReviewsDifferentCommand)
       <==> (q.actType == "AuthorizationResolved" ==>
               !exists a :: a in Linked(s.acts, q.authChain) && IsReview(a)
                            && ReviewedCommand(s.objects, a.payloadHash) != Some(CommandHash(q.command)))
  {
    hide Linked, CommandHash, Names, ReviewedCommand;
    var command := CommandHash(q.command);
    var strays := (a: Act) => IsReview(a) && ReviewedCommand(s.objects, a.payloadHash) != Some(command);
    LinksSome(s, q.authChain, strays);
    forall h | h in s.acts
      ensures strays(s.acts[h])
         <==> s.acts[h].actType == "AuthorizationReviewed" && !Names(s.objects, s.acts[h].payloadHash, command)
    {
      TargetNamed(s.objects, s.acts[h].payloadHash, command);
    }
  }

  lemma ReviewerMet(ed: Verifier, s: Ledger, q: Submission)
    ensures Meets(ed, s, q, NotAReviewCommand)
       <==> (q.actType == "AuthorizationReviewed" ==> q.command.commandType == "ReviewAuthorization")
  {
    hide CommandHash;
  }

  lemma TargetMet(ed: Verifier, s: Ledger, q: Submission)
    ensures Meets(ed, s, q, NoReviewTarget)
       <==> (q.actType == "AuthorizationReviewed" ==> ReviewedCommand(s.objects, q.command.payloadHash).Some?)
  {
    hide Names, ReviewedCommand;
    var payload := q.command.payloadHash;
    if ReviewedCommand(s.objects, payload).Some? {
      TargetNamed(s.objects, payload, ReviewedCommand(s.objects, payload).value);
    }
    if target :| Names(s.objects, payload, target) {
      TargetNamed(s.objects, payload, target);
    }
  }

  lemma ResolutionMet(ed: Verifier, s: Ledger, q: Submission)
    requires WellFormed(s)
    ensures Meets(ed, s, q, UnresolvedReview)
       <==> (!IsLifecycle(q.actType)
             && (exists a :: a in ActsForCommand(s, CommandHash(q.command)) && a.actType == "ReviewRequested") ==>
               exists a :: a in Linked(s.acts, q.authChain) && IsResolutionOf(a, CommandHash(q.command)))
  {
    hide Linked, CommandHash, ActsForCommand, IsLifecycle;
    var command := CommandHash(q.command);
    LinksSome(s, q.authChain, a => IsResolutionOf(a, command));
    RequestMembers(s, command);
    assert forall h | h in s.acts :: h in ToSet(s.order);
  }

  lemma ReviewStages()
    ensures IsLifecycle("AuthorizationReviewed") && IsLifecycle("AuthorizationResolved")
  {
  }

  /** The first of the review conditions that is unmet is the flaw the gate finds in the chain. */
  lemma ProofAnswers(ed: Verifier, s: Ledger, q: Submission)
    requires WellFormed(s)
    ensures FirstUnmet(ed, s, q, 4, 10, ProofFlaw(s, q))
  {
    hide Meets, ActsForCommand, Linked, ReviewedCommand, Names, WellFormed, CommandHash, IsLifecycle, IsRequestFor;
    hide IsResolutionOf, IsReview;
    ReviewStages();
    ReviewerMet(ed, s, q);
    TargetMet(ed, s, q);
    RequestMet(ed, s, q);
    ReviewMet(ed, s, q);
    TargetsMet(ed, s, q);
    ResolutionMet(ed, s, q);
  }

  lemma EntersExactly(s: Ledger, kind: string, name: Text, cut: set<Text>)
    ensures Registered(s, kind, name, cut) <==> exists e | e in s.registry :: Enters(e, kind, name, cut)
  {
  }

  lemma VocabularyMet(ed: Verifier, s: Ledger, q: Submission)
    ensures var cut := q.decision.registryCut;
            && (Meets(ed, s, q, UnregisteredCommandType) ==
                  Registered(s, "command_type", Plain(q.command.commandType), cut))
            && Meets(ed, s, q, UnregisteredActType) == Registered(s, "act_type", Plain(q.actType), cut)
  {
    hide CommandHash, Registered, Enters;
    EntersExactly(s, "command_type", Plain(q.command.commandType), q.decision.registryCut);
    EntersExactly(s, "act_type", Plain(q.actType), q.decision.registryCut);
  }

  lemma RulesMet(ed: Verifier, s: Ledger, q: Submission)
    ensures Meets(ed, s, q, NoRule) <==> q.decision.ruleHashes != []
    ensures Meets(ed, s, q, UnregisteredRule)
       <==> !exists r :: r in q.decision.ruleHashes && !Registered(s, "rule", r, q.decision.registryCut)
  {
    hide CommandHash, Registered, Enters;
    forall r | r in q.decision.ruleHashes
      ensures Registered(s, "rule", r, q.decision.registryCut)
         <==> exists e | e in s.registry :: Enters(e, "rule", r, q.decision.registryCut)
    {
      EntersExactly(s, "rule", r, q.decision.registryCut);
    }
  }

  lemma KeysMet(ed: Verifier, s: Ledger, q: Submission)
    ensures Meets(ed, s, q, UnregisteredContextType)
       <==> !exists key :: key in q.context.values
                           && !Registered(s, "context_type", Plain(key), q.decision.registryCut)
  {
    hide CommandHash, Registered, Enters;
    forall key | key in q.context.values
      ensures Registered(s, "context_type", Plain(key), q.decision.registryCut)
         <==> exists e | e in s.registry :: Enters(e, "context_type", Plain(key), q.decision.registryCut)
    {
      EntersExactly(s, "context_type", Plain(key), q.decision.registryCut);
    }
  }

  lemma ObjectsMet(ed: Verifier, s: Ledger, q: Submission)
    ensures Meets(ed, s, q, MissingPayload) <==> q.command.payloadHash in s.objects
    ensures Meets(ed, s, q, MissingParent) <==> !exists p :: p in q.command.parents && p !in s.acts
  {
    hide CommandHash;
  }

  lemma GovernanceAnswers(ed: Verifier, s: Ledger, q: Submission)
    ensures FirstUnmet(ed, s, q, 11, 18, GovernanceFlaw(s, q))
  {
    hide Meets, Registered;
    VocabularyMet(ed, s, q);
    RulesMet(ed, s, q);
    KeysMet(ed, s, q);
    ObjectsMet(ed, s, q);
  }

  lemma OutcomeMet(ed: Verifier, s: Ledger, q: Submission)
    ensures Meets(ed, s, q, OutcomeNotPermitted) <==> q.decision.outcome in PermittedOutcomes(q.actType)
    ensures Meets(ed, s, q, HistoryAdvanced) <==> HistoryCut(s) == q.decision.cut
  {
    hide CommandHash;
  }

  lemma ConsequenceMet(ed: Verifier, s: Ledger, q: Submission)
    requires WellFormed(s)
    ensures Meets(ed, s, q, AlreadyConsequential)
       <==> IsLifecycle(q.actType) || !HasConsequence(s, CommandHash(q.command))
  {
    hide CommandHash, IsLifecycle, HasConsequence;
    ConsequenceMembers(s, CommandHash(q.command));
  }

  lemma RefusalAnswers(ed: Verifier, s: Ledger, q: Submission)
    requires WellFormed(s)
    ensures FirstUnmet(ed, s, q, 2, 18, Refusal(s, q))
  {
    hide Meets, ProofFlaw, GovernanceFlaw, HasConsequence, PermittedOutcomes, IsLifecycle;
    OutcomeMet(ed, s, q);
    ConsequenceMet(ed, s, q);
    ProofAnswers(ed, s, q);
    GovernanceAnswers(ed, s, q);
  }

  /** What is left of a commit whose Context finds no place: the Command, unless that found none either. */
  function CommandAlone(s: Ledger, q: Submission): Ledger {
    PutObject(s, CommandHash(q.command), CommandRecord(q)).GetOr(s)
  }

  lemma SlotsMet(ed: Verifier, s: Ledger, q: Submission)
    ensures Meets(ed, s, q, CasCollision) <==> Unobstructed(s, q)
    ensures Meets(ed, s, q, StoreRejected)
       <==> Free(s.objects, ActHash(q), Record(Canonical(CanonicalValue(q)), "act"))
  {
    hide CanonicalValue, SigningValue, ContextValue;
  }

  lemma PlaceWithAnswers(s: Ledger, commandHash: Text, command: Record, contextHash: Text, context: Record, act: Act,
                         canon: Blob)
    requires act.hash !in s.acts
    requires commandHash != contextHash && commandHash != act.hash && contextHash != act.hash
    ensures var (t, r) := PlaceWith(s, commandHash, command, contextHash, context, act, canon);
            var both := s.(objects := s.objects[commandHash := command][contextHash := context]);
            if !Free(s.objects, commandHash, command) || !Free(s.objects, contextHash, context)
            then (t, r) == (PutObject(s, commandHash, command).GetOr(s), Err(CasCollision))
            else if !Free(s.objects, act.hash, Record(canon, "act")) then (t, r) == (both, Err(StoreRejected))
            else (t, r) == (Append(both, act, canon), Ok(act))
  {
  }

  lemma PlaceAnswers(ed: Verifier, s: Ledger, q: Submission)
    requires ActHash(q) !in s.acts
    ensures var (t, r) := Place(s, q);
            && FirstUnmet(ed, s, q, 18, 20, if r.Err? then Some(r.error) else None)
            && (r.Ok? ==> r.value == ActOf(q) && t == AfterPlacing(s, q))
            && (r == Err(StoreRejected) ==> t == Lodged(s, q))
            && (r == Err(CasCollision) ==> t == CommandAlone(s, q))
  {
    hide Meets, CanonicalValue, CommandHash, ContextHash, CommandRecord, ContextRecord, PlaceWith, Append, PutObject;
    SlotsMet(ed, s, q);
    HashesDiffer(q);
    PlaceWithAnswers(s, CommandHash(q.command), CommandRecord(q), ContextHash(q.context), ContextRecord(q),
                     ActOf(q), Canonical(CanonicalValue(q)));
  }

  lemma CommitAnswers(ed: Verifier, s: Ledger, q: Submission)
    requires WellFormed(s) && ActHash(q) !in s.acts
    ensures var (t, r) := Commit(ed, s, q);
            && FirstUnmet(ed, s, q, 0, 20, if r.Err? then Some(r.error) else None)
            && ((t, r) == Place(s, q) || (r.Err? && t == s && Turn(r.error) < 18))
  {
    hide Meets, Refusal, Place, AuthenticityFlaw, ActHash, AfterPlacing, Lodged, CommandAlone;
    AuthenticityAnswers(ed, s, q);
    RefusalAnswers(ed, s, q);
    PlaceAnswers(ed, s, q);
  }

  lemma AllTurns(ed: Verifier, s: Ledger, q: Submission)
    requires MeetsTurns(ed, s, q, 0, 20)
    ensures forall e: CommitError :: Meets(ed, s, q, e)
  {
    hide Meets;
    forall e: CommitError ensures Meets(ed, s, q, e) {
      assert Turn(e) < 20;
    }
  }

  /** The gate accepts a new occurrence exactly when every condition is met, and then the ledger has
      grown by the Command, the Context and the Act; refused, it names the first condition unmet, and
      nothing is written unless the refusal came from the writes themselves. */
  lemma GateAnswers(ed: Verifier, s: Ledger, q: Submission)
    requires WellFormed(s) && ActHash(q) !in s.acts
    ensures var (t, r) := Commit(ed, s, q);
            && (r.Ok? <==> forall e: CommitError :: Meets(ed, s, q, e))
            && (r.Ok? ==> r.value == ActOf(q) && t == AfterPlacing(s, q))
            && (r.Err? ==> !Meets(ed, s, q, r.error)
                           && forall e: CommitError | Turn(e) < Turn(r.error) :: Meets(ed, s, q, e))
            && (r.Err? ==> t == match r.error case StoreRejected => Lodged(s, q)
                                              case CasCollision => CommandAlone(s, q)
                                              case _ => s)
  {
    hide Meets, Commit, Place, ActHash, ActOf, AfterPlacing, Lodged, CommandAlone;
    CommitAnswers(ed, s, q);
    PlaceAnswers(ed, s, q);
    if Commit(ed, s, q).1.Ok? {
      AllTurns(ed, s, q);
    }
  }

  /** An occurrence that holds its place is returned to exactly those who can sign for it. */
  lemma ReplayAnswers(ed: Verifier, s: Ledger, q: Submission)
    requires ActHash(q) in s.acts
    ensures var (t, r) := Commit(ed, s, q);
            && t == s
            && (r.Ok? <==> q.identity.hash == q.command.identityHash
                           && ed(q.identity.publicKey, q.command.signature, SigningValue(q.command)))
            && (r.Ok? ==> r.value == s.acts[ActHash(q)])
  {
    hide Refusal, CanonicalValue;
  }

  // --- the commit RPC ---

  /** A JSON array of hashes that lists none twice. */
  predicate ListsHashes(items: seq<Text>) {
    && (forall i | 0 <= i < |items| :: IsHash(items[i]))
    && (forall i, j | 0 <= i < j < |items| :: items[i] != items[j])
  }

  /** What the RPC, its trigger and its index ask of a new row, one condition for each exception. */
  ghost predicate RpcMeets(db: Ledger, a: RpcArgs, refusal: RpcError) {
    match refusal
    case MalformedHash =>
      IsHash(a.actHash) && IsHash(a.commandHash) && IsHash(a.identityHash) && IsHash(a.contextHash)
      && IsHash(a.payloadHash)
    case EmptyCanon => forall parsed :: a.canon != Foreign([], parsed)
    case MalformedHashArray =>
      ListsHashes(a.parents) && ListsHashes(a.decisionCut) && ListsHashes(a.authChain) && ListsHashes(a.registryCut)
      && ListsHashes(a.ruleHashes)
    case NoRules => |a.ruleHashes| > 0
    case OwnParent => forall p | p in a.parents :: p != a.actHash
    case AdvancedHistory => forall h :: h in a.decisionCut <==> h in db.acts
    case UnknownIdentity => a.identityHash in db.identities
    case UnknownContext => a.contextHash in db.objects
    case UnknownPayload => a.payloadHash in db.objects
    case UnknownParent => forall h | h in a.parents :: h in db.acts
    case UnknownRegistryCut => forall h | h in a.registryCut :: h in db.acts
    case UnknownAuthChain => forall h | h in a.authChain :: h in db.acts
    case CommandTypeUnregistered =>
      exists e | e in db.registry ::
        e.kind == "command_type" && e.name == Plain(a.commandType) && e.bornAt in a.registryCut
    case ActTypeUnregistered =>
      exists e | e in db.registry :: e.kind == "act_type" && e.name == Plain(a.actType) && e.bornAt in a.registryCut
    case RuleUnregistered =>
      forall r | r in a.ruleHashes ::
        exists e | e in db.registry :: e.kind == "rule" && e.hash == r && e.bornAt in a.registryCut
    case ActCollision => a.actHash in db.objects ==> db.objects[a.actHash] == Record(a.canon, "act")
    case NoCommandType => |a.commandType| > 0
    case SecondConsequence =>
      !IsLifecycle(a.actType) ==>
        forall h | h in db.acts && db.acts[h].commandHash == a.commandHash :: IsLifecycle(db.acts[h].actType)
  }

  function RpcTurn(refusal: RpcError): nat {
    match refusal
    case MalformedHash => 0
    case EmptyCanon => 1
    case MalformedHashArray => 2
    case NoRules => 3
    case OwnParent => 4
    case AdvancedHistory => 5
    case UnknownIdentity => 6
    case UnknownContext => 7
    case UnknownPayload => 8
    case UnknownParent => 9
    case UnknownRegistryCut => 10
    case UnknownAuthChain => 11
    case CommandTypeUnregistered => 12
    case ActTypeUnregistered => 13
    case RuleUnregistered => 14
    case ActCollision => 15
    case NoCommandType => 16
    case SecondConsequence => 17
  }

  lemma HashArrayExactly(items: seq<Text>)
    ensures IsHashArray(items) <==> ListsHashes(items)
  {
    DistinctByCount(items);
    if ListsHashes(items) {
      forall item | item in items ensures IsHash(item) {
        var i :| 0 <= i < |items| && items[i] == item;
      }
    }
    if IsHashArray(items) {
      forall i | 0 <= i < |items| ensures IsHash(items[i]) {
        assert items[i] in items;
      }
    }
  }

  lemma ArraysMet(db: Ledger, a: RpcArgs)
    ensures RpcMeets(db, a, MalformedHashArray)
       <==> IsHashArray(a.parents) && IsHashArray(a.decisionCut) && IsHashArray(a.authChain)
            && IsHashArray(a.registryCut) && IsHashArray(a.ruleHashes)
  {
    hide IsHashArray, ListsHashes;
    HashArrayExactly(a.parents);
    HashArrayExactly(a.decisionCut);
    HashArrayExactly(a.authChain);
    HashArrayExactly(a.registryCut);
    HashArrayExactly(a.ruleHashes);
  }

  lemma CutMet(db: Ledger, a: RpcArgs)
    requires WellFormed(db) && IsHashArray(a.decisionCut)
    ensures RpcMeets(db, a, AdvancedHistory) <==> CutIsHistorySql(db, a.decisionCut)
  {
    DistinctByCount(a.decisionCut);
    CutFormsAgree(db, a.decisionCut);
    if RpcMeets(db, a, AdvancedHistory) {
      assert forall h :: h in a.decisionCut <==> h in db.acts;
      assert HistoryCut(db) == ToSet(a.decisionCut);
    }
  }

  lemma FormsMet(db: Ledger, a: RpcArgs)
    ensures RpcMeets(db, a, EmptyCanon) <==> !(a.canon.Foreign? && a.canon.raw == [])
    ensures RpcMeets(db, a, NoRules) <==> a.ruleHashes != []
    ensures RpcMeets(db, a, OwnParent) <==> a.actHash !in a.parents
    ensures RpcMeets(db, a, NoCommandType) <==> a.commandType != ""
  {
    if a.canon.Foreign? && a.canon.raw == [] {
      assert a.canon == Foreign([], a.canon.parsed);
    }
  }

  lemma RowsMet(db: Ledger, a: RpcArgs)
    ensures RpcMeets(db, a, UnknownParent) <==> !SomeUnknown(db, a.parents)
    ensures RpcMeets(db, a, UnknownRegistryCut) <==> !SomeUnknown(db, a.registryCut)
    ensures RpcMeets(db, a, UnknownAuthChain) <==> !SomeUnknown(db, a.authChain)
  {
  }

  lemma EntriesMet(db: Ledger, a: RpcArgs)
    ensures RpcMeets(db, a, CommandTypeUnregistered)
       <==> RegisteredByName(db, "command_type", Plain(a.commandType), a.registryCut)
    ensures RpcMeets(db, a, ActTypeUnregistered)
       <==> RegisteredByName(db, "act_type", Plain(a.actType), a.registryCut)
    ensures RpcMeets(db, a, RuleUnregistered)
       <==> !exists r :: r in a.ruleHashes && !RegisteredByHash(db, "rule", r, a.registryCut)
  {
  }

  lemma IndexMet(db: Ledger, a: RpcArgs)
    requires WellFormed(db)
    ensures RpcMeets(db, a, SecondConsequence) <==> IsLifecycle(a.actType) || !ConsequenceIndexHolds(db, a.commandHash)
  {
    hide IsLifecycle;
    assert forall h | h in db.acts :: h in ToSet(db.order);
  }

  lemma PlainMet(db: Ledger, a: RpcArgs)
    ensures RpcMeets(db, a, MalformedHash)
       <==> IsHash(a.actHash) && IsHash(a.commandHash) && IsHash(a.identityHash) && IsHash(a.contextHash)
            && IsHash(a.payloadHash)
    ensures RpcMeets(db, a, UnknownIdentity) <==> a.identityHash in db.identities
    ensures RpcMeets(db, a, UnknownContext) <==> a.contextHash in db.objects
    ensures RpcMeets(db, a, UnknownPayload) <==> a.payloadHash in db.objects
    ensures RpcMeets(db, a, ActCollision)
       <==> !(a.actHash in db.objects && db.objects[a.actHash] != Record(a.canon, "act"))
  {
  }

  lemma RpcRefusalAnswers(db: Ledger, a: RpcArgs)
    requires WellFormed(db)
    ensures match RpcRefusal(db, a)
            case None => forall e: RpcError :: RpcMeets(db, a, e)
            case Some(e) => !RpcMeets(db, a, e) && forall f: RpcError | RpcTurn(f) < RpcTurn(e) :: RpcMeets(db, a, f)
  {
    hide RpcMeets, IsHashArray, IsHash, CutIsHistorySql, SomeUnknown, RegisteredByName, RegisteredByHash, WellFormed;
    hide ConsequenceIndexHolds, IsLifecycle;
    PlainMet(db, a);
    FormsMet(db, a);
    ArraysMet(db, a);
    if IsHashArray(a.decisionCut) {
      CutMet(db, a);
    }
    RowsMet(db, a);
    EntriesMet(db, a);
    IndexMet(db, a);
    if RpcRefusal(db, a).None? {
      forall e: RpcError ensures RpcMeets(db, a, e) {
        assert RpcTurn(e) < 18;
      }
    }
  }

  /** Whoever calls the RPC with whatever arguments: a new row is accepted exactly when every condition
      is met, and then it holds the arguments, at the end of history, beside its bytes; refused, the
      exception names the first condition unmet and nothing is changed. */
  lemma RpcAnswers(db: Ledger, a: RpcArgs)
    requires WellFormed(db) && a.actHash !in db.acts
    ensures var (db', r) := CommitActRpc(db, a);
            && (r.Ok? <==> forall e: RpcError :: RpcMeets(db, a, e))
            && (r.Ok? ==>
                  && r.value == Act(a.actHash, a.actType, a.identityHash, a.parents, HistoryCut(db), a.commandHash,
                                    a.authChain, ToSet(a.registryCut), a.ruleHashes, a.contextHash, a.payloadHash,
                                    a.claimedWhen)
                  && db' == db.(objects := db.objects[a.actHash := Record(a.canon, "act")],
                                acts := db.acts[a.actHash := r.value], order := db.order + [a.actHash]))
            && (r.Err? ==> db' == db && !RpcMeets(db, a, r.error)
                           && forall e: RpcError | RpcTurn(e) < RpcTurn(r.error) :: RpcMeets(db, a, e))
  {
    hide RpcMeets, RpcRefusal, WellFormed;
    RpcRefusalAnswers(db, a);
    if RpcRefusal(db, a).None? {
      AcceptedCut(db, a);
    }
  }

  lemma AcceptedCut(db: Ledger, a: RpcArgs)
    requires RpcMeets(db, a, AdvancedHistory)
    ensures ToSet(a.decisionCut) == HistoryCut(db)
  {
  }
}

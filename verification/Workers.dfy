/**
 The commit gate as a program of separate store calls (kernel/commit.py over ledger/postgres.py):
 every read is its own transaction, so other workers may move between any two of them.
 */
module Workers {
  import opened Canon
  import opened Types
  import opened Ledgers
  import opened Gate
  import opened Postgres

  /** The next store call of a worker, with what it remembers of earlier ones. */
  datatype Pc =
    | Lookup
    | PriorConsequence
    | ReviewTarget
    | Links(linked: seq<Act>, next: nat)
    | ReviewPayloads(linked: seq<Act>, next: nat)
    | PendingReview(linked: seq<Act>)
    | CurrentCut
    | CommandType
    | ActType
    | Rules(next: nat)
    | ContextTypes(left: set<string>)
    | Payload
    | Parents(next: nat)
    | PutCommand
    | PutContext
    | CallRpc
    | Done(result: Result<Act, CommitError>)

  function ProofStart(q: Submission): Pc {
    if q.actType != "AuthorizationReviewed" then Links([], 0)
    else if q.command.commandType != "ReviewAuthorization" then Done(Err(NotAReviewCommand))
    else ReviewTarget
  }

  function AfterLinks(q: Submission, linked: seq<Act>): Pc {
    var command := CommandHash(q.command);
    if q.actType == "AuthorizationResolved" then
      if !exists a :: a in linked && IsRequestFor(a, command) then Done(Err(MissingReviewRequest))
      else if !exists a :: a in linked && IsReview(a) then Done(Err(MissingReview))
      else ReviewPayloads(linked, 0)
    else if IsLifecycle(q.actType) then CurrentCut
    else PendingReview(linked)
  }

  predicate Requested(s: Ledger, command: Text) {
    exists a :: a in ActsForCommand(s, command) && a.actType == "ReviewRequested"
  }

  predicate Resolved(linked: seq<Act>, command: Text) {
    exists a :: a in linked && IsResolutionOf(a, command)
  }

  /** The outcome of one store read at each point of the gate; reads change nothing. */
  predicate ReadStep(s: Ledger, q: Submission, pc: Pc, pc': Pc) {
    var registryCut := q.decision.registryCut;
    match pc
    case Lookup =>
      pc' == if ActHash(q) in s.acts then Done(Ok(s.acts[ActHash(q)]))
             else if q.decision.outcome !in PermittedOutcomes(q.actType) then Done(Err(OutcomeNotPermitted))
             else if IsLifecycle(q.actType) then ProofStart(q)
             else PriorConsequence
    case PriorConsequence =>
      pc' == if HasConsequence(s, CommandHash(q.command)) then Done(Err(AlreadyConsequential)) else ProofStart(q)
    case ReviewTarget =>
      pc' == if ReviewedCommand(s.objects, q.command.payloadHash).None? then Done(Err(NoReviewTarget)) else CurrentCut
    case Links(linked, next) =>
      pc' == if next >= |q.authChain| then AfterLinks(q, linked)
             else if q.authChain[next] in s.acts then Links(linked + [s.acts[q.authChain[next]]], next + 1)
             else Links(linked, next + 1)
    case ReviewPayloads(linked, next) =>
      pc' == if next >= |linked| then CurrentCut
             else if IsReview(linked[next])
                     && ReviewedCommand(s.objects, linked[next].payloadHash) != Some(CommandHash(q.command))
             then Done(Err(ReviewsDifferentCommand))
             else ReviewPayloads(linked, next + 1)
    case PendingReview(linked) =>
      pc' == if Requested(s, CommandHash(q.command)) && !Resolved(linked, CommandHash(q.command))
             then Done(Err(UnresolvedReview)) else CurrentCut
    case CurrentCut =>
      pc' == if HistoryCut(s) != q.decision.cut then Done(Err(HistoryAdvanced)) else CommandType
    case CommandType =>
      pc' == if !Registered(s, "command_type", Plain(q.command.commandType), registryCut)
             then Done(Err(UnregisteredCommandType)) else ActType
    case ActType =>
      pc' == if !Registered(s, "act_type", Plain(q.actType), registryCut) then Done(Err(UnregisteredActType))
             else if q.decision.ruleHashes == [] then Done(Err(NoRule))
             else Rules(0)
    case Rules(next) =>
      pc' == if next >= |q.decision.ruleHashes| then ContextTypes(q.context.values.Keys)
             else if !Registered(s, "rule", q.decision.ruleHashes[next], registryCut) then Done(Err(UnregisteredRule))
             else Rules(next + 1)
    case ContextTypes(left) =>
      if left == {} then pc' == Payload
      else exists key | key in left ::
        pc' == if !Registered(s, "context_type", Plain(key), registryCut) then Done(Err(UnregisteredContextType))
               else ContextTypes(left - {key})
    case Payload =>
      pc' == if q.command.payloadHash !in s.objects then Done(Err(MissingPayload)) else Parents(0)
    case Parents(next) =>
      pc' == if next >= |q.command.parents| then PutCommand
             else if q.command.parents[next] !in s.acts then Done(Err(MissingParent))
             else Parents(next + 1)
    case _ => false
  }

  /** The object a writing point of the gate stores, if this is one. */
  function Writes(q: Submission, pc: Pc): Option<(Text, Record)> {
    match pc
    case PutCommand => Some((CommandHash(q.command), CommandRecord(q)))
    case PutContext => Some((ContextHash(q.context), ContextRecord(q)))
    case _ => None
  }

  /** The two object writes; a collision ends the commit and stores nothing. */
  predicate WriteStep(s: Ledger, q: Submission, pc: Pc, pc': Pc, s': Ledger) {
    match Writes(q, pc)
    case None => false
    case Some((h, record)) =>
      match PutObject(s, h, record)
      case None => pc' == Done(Err(CasCollision)) && s' == s
      case Some(t) => pc' == (if pc.PutCommand? then PutContext else CallRpc) && s' == t
  }

  /** An array lists a set: the sorted JSON array the adapter sends for a cut. */
  predicate Lists(items: seq<Text>, members: set<Text>) {
    Distinct(items) && ToSet(items) == members
  }

  function RpcArgsOf(q: Submission, cut: seq<Text>, registryCut: seq<Text>): RpcArgs {
    RpcArgs(ActHash(q), Canonical(CanonicalValue(q)), q.actType, q.command.commandType, q.identity.hash,
            q.command.parents, cut, CommandHash(q.command), q.authChain, registryCut, q.decision.ruleHashes,
            ContextHash(q.context), q.command.payloadHash, q.claimedWhen)
  }

  function RpcAnswer(r: Result<Act, RpcError>): Result<Act, CommitError> {
    match r
    case Ok(act) => Ok(act)
    case Err(_) => Err(StoreRejected)
  }

  // --- what a worker's position shows, as long as history is still its decision's cut ---

  function Stage(pc: Pc): nat {
    match pc
    case Lookup => 0
    case PriorConsequence => 1
    case ReviewTarget => 2
    case Links(_, _) => 2
    case ReviewPayloads(_, _) => 2
    case PendingReview(_) => 2
    case CurrentCut => 3
    case CommandType => 4
    case ActType => 5
    case Rules(_) => 6
    case ContextTypes(_) => 7
    case Payload => 8
    case Parents(_) => 9
    case PutCommand => 10
    case PutContext => 11
    case CallRpc => 12
    case Done(_) => 13
  }

  predicate RulesRegistered(s: Ledger, q: Submission, n: int) {
    forall i | 0 <= i < n && i < |q.decision.ruleHashes| ::
      Registered(s, "rule", q.decision.ruleHashes[i], q.decision.registryCut)
  }

  predicate ContextsRegistered(s: Ledger, q: Submission, left: set<string>) {
    forall key | key in q.context.values && key !in left ::
      Registered(s, "context_type", Plain(key), q.decision.registryCut)
  }

  predicate ParentsKnown(s: Ledger, q: Submission, n: int) {
    forall i | 0 <= i < n && i < |q.command.parents| :: q.command.parents[i] in s.acts
  }

  predicate ReviewsMatch(s: Ledger, linked: seq<Act>, command: Text, n: int) {
    forall i | 0 <= i < n && i < |linked| && IsReview(linked[i]) ::
      ReviewedCommand(s.objects, linked[i].payloadHash) == Some(command)
  }

  predicate Holds(s: Ledger, h: Text, record: Record) {
    h in s.objects && s.objects[h] == record
  }

  /** Guards a worker at stage n has passed, as far as they do not ask what history lacks. */
  predicate Guarded(s: Ledger, q: Submission, n: nat) {
    && (n >= 1 ==> q.decision.outcome in PermittedOutcomes(q.actType))
    && (n >= 3 ==> ProofFlaw(s, q).None?)
    && (n >= 5 ==> Registered(s, "command_type", Plain(q.command.commandType), q.decision.registryCut))
    && (n >= 6 ==> Registered(s, "act_type", Plain(q.actType), q.decision.registryCut) && q.decision.ruleHashes != [])
    && (n >= 7 ==> RulesRegistered(s, q, |q.decision.ruleHashes|))
    && (n >= 8 ==> ContextsRegistered(s, q, {}))
    && (n >= 9 ==> q.command.payloadHash in s.objects)
    && (n >= 10 ==> ParentsKnown(s, q, |q.command.parents|))
    && (n >= 11 ==> Holds(s, CommandHash(q.command), CommandRecord(q)))
    && (n >= 12 ==> Holds(s, ContextHash(q.context), ContextRecord(q)))
  }

  /** The guards a worker at stage n has passed hold of the present state. */
  predicate Passed(s: Ledger, q: Submission, n: nat) {
    && Guarded(s, q, n)
    && (n >= 1 ==> ActHash(q) !in s.acts)
    && (n >= 2 ==> IsLifecycle(q.actType) || !HasConsequence(s, CommandHash(q.command)))
  }

  /** Inside a loop of reads: what the reads so far have shown. */
  predicate Midway(s: Ledger, q: Submission, pc: Pc) {
    match pc
    case PriorConsequence => !IsLifecycle(q.actType)
    case ReviewTarget => q.actType == "AuthorizationReviewed" && q.command.commandType == "ReviewAuthorization"
    case Links(linked, next) =>
      q.actType != "AuthorizationReviewed" && next <= |q.authChain| && linked == Linked(s.acts, q.authChain[..next])
    case ReviewPayloads(linked, next) =>
      && q.actType == "AuthorizationResolved" && linked == Linked(s.acts, q.authChain)
      && (exists a :: a in linked && IsRequestFor(a, CommandHash(q.command)))
      && (exists a :: a in linked && IsReview(a))
      && ReviewsMatch(s, linked, CommandHash(q.command), next)
    case PendingReview(linked) =>
      !IsLifecycle(q.actType) && linked == Linked(s.acts, q.authChain)
    case Rules(next) => RulesRegistered(s, q, next)
    case ContextTypes(left) => ContextsRegistered(s, q, left)
    case Parents(next) => ParentsKnown(s, q, next)
    case _ => true
  }

  predicate Cleared(s: Ledger, q: Submission, pc: Pc) {
    Passed(s, q, Stage(pc)) && Midway(s, q, pc)
  }

  // --- steps advance it, growth of the object store and registry keeps it ---

  lemma ProofStartCleared(s: Ledger, q: Submission)
    requires Passed(s, q, 2)
    ensures ProofStart(q).Done? || Cleared(s, q, ProofStart(q))
  {
  }

  lemma AfterLinksCleared(s: Ledger, q: Submission)
    requires Passed(s, q, 2) && q.actType != "AuthorizationReviewed"
    ensures var pc := AfterLinks(q, Linked(s.acts, q.authChain)); pc.Done? || Cleared(s, q, pc)
  {
  }

  lemma ReviewPayloadsCleared(s: Ledger, q: Submission, pc: Pc)
    requires pc.ReviewPayloads? && pc.next >= |pc.linked| && Cleared(s, q, pc)
    ensures ProofFlaw(s, q).None?
  {
    forall a | a in pc.linked && IsReview(a)
      ensures ReviewedCommand(s.objects, a.payloadHash) == Some(CommandHash(q.command))
    {
      var i :| 0 <= i < |pc.linked| && pc.linked[i] == a;
    }
  }

  lemma LookupStepCleared(s: Ledger, q: Submission, pc: Pc, pc': Pc)
    requires Cleared(s, q, pc) && ReadStep(s, q, pc, pc') && Stage(pc) < 2 && !pc'.Done?
    ensures Cleared(s, q, pc')
  {
    if pc'.PriorConsequence? {
      assert Passed(s, q, 1);
    } else {
      ProofStartCleared(s, q);
    }
  }

  lemma LinksStepCleared(s: Ledger, q: Submission, pc: Pc, pc': Pc)
    requires pc.Links? && Cleared(s, q, pc) && ReadStep(s, q, pc, pc') && !pc'.Done?
    ensures Cleared(s, q, pc')
  {
    if pc.next >= |q.authChain| {
      assert q.authChain[..pc.next] == q.authChain;
      AfterLinksCleared(s, q);
    } else {
      assert q.authChain[..pc.next + 1][..pc.next] == q.authChain[..pc.next];
    }
  }

  lemma ReviewStepCleared(s: Ledger, q: Submission, pc: Pc, pc': Pc)
    requires Cleared(s, q, pc) && ReadStep(s, q, pc, pc') && Stage(pc) == 2 && !pc.Links? && !pc'.Done?
    ensures Cleared(s, q, pc')
  {
    if pc.ReviewPayloads? && pc.next >= |pc.linked| {
      ReviewPayloadsCleared(s, q, pc);
    }
  }

  lemma ProofStepCleared(s: Ledger, q: Submission, pc: Pc, pc': Pc)
    requires Cleared(s, q, pc) && ReadStep(s, q, pc, pc') && Stage(pc) <= 2 && !pc'.Done?
    ensures Cleared(s, q, pc')
  {
    if Stage(pc) < 2 {
      LookupStepCleared(s, q, pc, pc');
    } else if pc.Links? {
      LinksStepCleared(s, q, pc, pc');
    } else {
      ReviewStepCleared(s, q, pc, pc');
    }
  }

  lemma LoopStepCleared(s: Ledger, q: Submission, pc: Pc, pc': Pc)
    requires Cleared(s, q, pc) && ReadStep(s, q, pc, pc') && !pc'.Done?
    requires pc.Rules? || pc.ContextTypes? || pc.Parents?
    ensures Cleared(s, q, pc')
  {
    hide Registered, ProofFlaw, HasConsequence, CanonicalValue, CommandRecord, ContextRecord, CommandHash, ContextHash;
    hide ActHash, Holds;
  }

  lemma RegistryStepCleared(s: Ledger, q: Submission, pc: Pc, pc': Pc)
    requires Cleared(s, q, pc) && ReadStep(s, q, pc, pc') && Stage(pc) > 2 && !pc'.Done?
    ensures Cleared(s, q, pc')
  {
    hide Registered, ProofFlaw, HasConsequence, CanonicalValue, CommandRecord, ContextRecord, CommandHash, ContextHash;
    if pc.Rules? || pc.ContextTypes? || pc.Parents? {
      LoopStepCleared(s, q, pc, pc');
    } else {
      hide RulesRegistered, ContextsRegistered, ParentsKnown, ActHash, Holds;
      LoopsEmpty(s, q);
    }
  }

  lemma LoopsEmpty(s: Ledger, q: Submission)
    ensures RulesRegistered(s, q, 0) && ContextsRegistered(s, q, q.context.values.Keys) && ParentsKnown(s, q, 0)
  {
  }

  lemma WriteStepCleared(s: Ledger, q: Submission, pc: Pc, pc': Pc, s': Ledger)
    requires Cleared(s, q, pc) && WriteStep(s, q, pc, pc', s') && !pc'.Done?
    ensures Passed(s', q, Stage(pc)) ==> Cleared(s', q, pc')
  {
  }

  /** Objects and registry only grow, while history stands still. */
  predicate GrowsBeside(s: Ledger, t: Ledger) {
    t.acts == s.acts && t.order == s.order && SameOn(s.objects, t.objects)
    && forall e | e in s.registry :: e in t.registry
  }

  lemma ProofFlawGrows(s: Ledger, t: Ledger, q: Submission)
    requires GrowsBeside(s, t) && ProofFlaw(s, q).None?
    ensures ProofFlaw(t, q).None?
  {
  }

  lemma PassedGrows(s: Ledger, t: Ledger, q: Submission, n: nat)
    requires GrowsBeside(s, t) && Passed(s, q, n)
    ensures Passed(t, q, n)
  {
    if n >= 3 {
      ProofFlawGrows(s, t, q);
    }
  }

  lemma ClearedGrows(s: Ledger, t: Ledger, q: Submission, pc: Pc)
    requires GrowsBeside(s, t) && Cleared(s, q, pc)
    ensures Cleared(t, q, pc)
  {
    PassedGrows(s, t, q, Stage(pc));
  }

  // --- submissions that no history can overtake ---

  /** The stages of a trajectory whose guards, once met, are met by every later history. */
  predicate IsSteady(actType: string) {
    IsLifecycle(actType) && actType != "AuthorizationResolved"
  }

  /** Inside a loop of reads of a steady submission: its links do not matter, and it asks for nothing that
      later history may bring. */
  predicate SteadyMidway(s: Ledger, q: Submission, pc: Pc) {
    match pc
    case PriorConsequence => false
    case ReviewTarget => q.actType == "AuthorizationReviewed" && q.command.commandType == "ReviewAuthorization"
    case Links(_, _) => q.actType != "AuthorizationReviewed"
    case ReviewPayloads(_, _) => false
    case PendingReview(_) => false
    case Rules(next) => RulesRegistered(s, q, next)
    case ContextTypes(left) => ContextsRegistered(s, q, left)
    case Parents(next) => ParentsKnown(s, q, next)
    case _ => true
  }

  predicate SteadyCleared(s: Ledger, q: Submission, pc: Pc) {
    Guarded(s, q, Stage(pc)) && SteadyMidway(s, q, pc)
  }

  lemma SteadyProofRead(s: Ledger, q: Submission, pc: Pc, pc': Pc)
    requires IsSteady(q.actType) && SteadyCleared(s, q, pc) && ReadStep(s, q, pc, pc') && !pc'.Done? && Stage(pc) <= 2
    ensures SteadyCleared(s, q, pc')
  {
    hide CommandHash, ActHash, HasConsequence;
  }

  lemma SteadyGovernanceRead(s: Ledger, q: Submission, pc: Pc, pc': Pc)
    requires SteadyCleared(s, q, pc) && ReadStep(s, q, pc, pc') && !pc'.Done? && Stage(pc) > 2
    ensures SteadyCleared(s, q, pc')
  {
    hide Registered, ProofFlaw, CanonicalValue, CommandRecord, ContextRecord, CommandHash, ContextHash;
  }

  /** A steady submission keeps what it has passed through any growth of the ledger. */
  lemma SteadyGrows(s: Ledger, t: Ledger, q: Submission, pc: Pc)
    requires IsSteady(q.actType) && SteadyCleared(s, q, pc)
    requires SameOn(s.objects, t.objects) && s.acts.Keys <= t.acts.Keys && forall e | e in s.registry :: e in t.registry
    ensures SteadyCleared(t, q, pc)
  {
    hide CommandHash, ContextHash, CommandRecord, ContextRecord;
    SteadyProofGrows(s, t, q);
  }

  lemma SteadyProofGrows(s: Ledger, t: Ledger, q: Submission)
    requires IsSteady(q.actType) && SameOn(s.objects, t.objects)
    ensures ProofFlaw(s, q).None? ==> ProofFlaw(t, q).None?
  {
  }

  lemma SteadyWrite(s: Ledger, q: Submission, pc: Pc, pc': Pc, t: Ledger)
    requires SteadyCleared(t, q, pc) && WriteStep(s, q, pc, pc', t) && !pc'.Done?
    ensures SteadyCleared(t, q, pc')
  {
    hide Registered, ProofFlaw, CommandHash, ContextHash, CommandRecord, ContextRecord;
  }

  // --- the acceptance of the RPC ---

  lemma AllGuardsPassed(s: Ledger, q: Submission)
    requires Passed(s, q, 12) && HistoryCut(s) == q.decision.cut
    ensures Refusal(s, q).None?
  {
    forall r | r in q.decision.ruleHashes ensures Registered(s, "rule", r, q.decision.registryCut) {
      var i :| 0 <= i < |q.decision.ruleHashes| && q.decision.ruleHashes[i] == r;
    }
    forall p | p in q.command.parents ensures p in s.acts {
      var i :| 0 <= i < |q.command.parents| && q.command.parents[i] == p;
    }
  }

  lemma PlaceOverStored(s: Ledger, commandHash: Text, command: Record, contextHash: Text, context: Record,
                        act: Act, canon: Blob)
    requires Holds(s, commandHash, command) && Holds(s, contextHash, context)
    ensures PlaceWith(s, commandHash, command, contextHash, context, act, canon) == CommitAct(s, act, canon)
  {
    assert s.objects[commandHash := command] == s.objects;
    assert s.(objects := s.objects[commandHash := command]) == s;
    assert s.objects[contextHash := context] == s.objects;
  }

  /** An accepting RPC, called by a worker whose passed guards hold if the cut still does, is the
      sequential commit of its submission on the very state the lock shows it. */
  lemma RpcIsCommit(ed: Verifier, s: Ledger, q: Submission, cut: seq<Text>, registryCut: seq<Text>)
    requires WellFormed(s) && AuthenticityFlaw(ed, q).None?
    requires Lists(cut, q.decision.cut) && Lists(registryCut, q.decision.registryCut)
    requires HistoryCut(s) == q.decision.cut && ActHash(q) !in s.acts ==> Passed(s, q, 12)
    requires CommitActRpc(s, RpcArgsOf(q, cut, registryCut)).1.Ok?
    ensures var (t, r) := CommitActRpc(s, RpcArgsOf(q, cut, registryCut));
            Commit(ed, s, q) == (t, RpcAnswer(r))
  {
    var a := RpcArgsOf(q, cut, registryCut);
    if a.actHash !in s.acts {
      RpcChecks(s, a);
      AllGuardsPassed(s, q);
      assert RowToAct(a) == ActOf(q);
      PlaceOverStored(s, CommandHash(q.command), CommandRecord(q), ContextHash(q.context), ContextRecord(q),
                      ActOf(q), a.canon);
    }
  }
}

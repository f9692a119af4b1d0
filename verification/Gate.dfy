/**
 The commit gate as a transition on ledger values (kernel/commit.py).
 */
module Gate {
  import opened Canon
  import opened Types
  import opened Ledgers

  datatype CommitError =
    | IdentityMismatch
    | InvalidSignature
    | OutcomeNotPermitted
    | AlreadyConsequential
    | NotAReviewCommand
    | NoReviewTarget
    | MissingReviewRequest
    | MissingReview
    | ReviewsDifferentCommand
    | UnresolvedReview
    | HistoryAdvanced
    | UnregisteredCommandType
    | UnregisteredActType
    | NoRule
    | UnregisteredRule
    | UnregisteredContextType
    | MissingPayload
    | MissingParent
    | CasCollision
    | StoreRejected

  /** The arguments of one commit. */
  datatype Submission = Submission(
    identity: Identity,
    command: Command,
    decision: Decision,
    context: Context,
    actType: string,
    authChain: seq<Text>,
    claimedWhen: Option<Text>)

  /** The one representation that is hashed, stored and indexed. */
  function CanonicalValue(q: Submission): Value {
    Obj(map[
      "act_type" := Str(Plain(q.actType)),
      "auth_chain" := Strs(q.authChain),
      "claimed_when" := Optional(q.claimedWhen),
      "command_hash" := Str(CommandHash(q.command)),
      "context_hash" := Str(ContextHash(q.context)),
      "decision_cut" := Sorted(q.decision.cut),
      "identity_hash" := Str(q.identity.hash),
      "parents" := Strs(q.command.parents),
      "payload_hash" := Str(q.command.payloadHash),
      "registry_cut" := Sorted(q.decision.registryCut),
      "rule_hashes" := Strs(q.decision.ruleHashes)])
  }

  function ActHash(q: Submission): Text {
    ObjectHash("act", CanonicalValue(q))
  }

  function ActOf(q: Submission): Act {
    Act(ActHash(q), q.actType, q.identity.hash, q.command.parents, q.decision.cut, CommandHash(q.command),
        q.authChain, q.decision.registryCut, q.decision.ruleHashes, ContextHash(q.context),
        q.command.payloadHash, q.claimedWhen)
  }

  /** The Command a review payload names, if the stored payload is an object naming one. */
  function ReviewedCommand(objects: map<Text, Record>, payload: Text): Option<Text> {
    if payload !in objects then None
    else
      match Loads(objects[payload].canon)
      case Some(Obj(fields)) =>
        if "reviewed_command_hash" in fields && fields["reviewed_command_hash"].Str?
        then Some(fields["reviewed_command_hash"].text)
        else None
      case _ => None
  }

  predicate IsRequestFor(a: Act, command: Text) {
    a.actType == "ReviewRequested" && a.commandHash == command
  }

  predicate IsResolutionOf(a: Act, command: Text) {
    a.actType == "AuthorizationResolved" && a.commandHash == command
  }

  predicate IsReview(a: Act) {
    a.actType == "AuthorizationReviewed"
  }

  /** What is wrong with the authorization chain of a submission, if anything. */
  function ProofFlaw(s: Ledger, q: Submission): Option<CommitError> {
    var command := CommandHash(q.command);
    var linked := Linked(s.acts, q.authChain);
    if q.actType == "AuthorizationReviewed" then
      if q.command.commandType != "ReviewAuthorization" then Some(NotAReviewCommand)
      else if ReviewedCommand(s.objects, q.command.payloadHash).None? then Some(NoReviewTarget)
      else None
    else if q.actType == "AuthorizationResolved" then
      if !exists a :: a in linked && IsRequestFor(a, command) then Some(MissingReviewRequest)
      else if !exists a :: a in linked && IsReview(a) then Some(MissingReview)
      else if exists a :: a in linked && IsReview(a) && ReviewedCommand(s.objects, a.payloadHash) != Some(command)
      then Some(ReviewsDifferentCommand)
      else None
    else if IsLifecycle(q.actType) then None
    else if (exists a :: a in ActsForCommand(s, command) && a.actType == "ReviewRequested")
            && !exists a :: a in linked && IsResolutionOf(a, command)
    then Some(UnresolvedReview)
    else None
  }

  predicate HasConsequence(s: Ledger, command: Text) {
    exists a :: a in ActsForCommand(s, command) && !IsLifecycle(a.actType)
  }

  /** What the registry, the store or the parents lack for a submission, at its declared registry cut. */
  function GovernanceFlaw(s: Ledger, q: Submission): Option<CommitError> {
    var registryCut := q.decision.registryCut;
    if !Registered(s, "command_type", Plain(q.command.commandType), registryCut) then Some(UnregisteredCommandType)
    else if !Registered(s, "act_type", Plain(q.actType), registryCut) then Some(UnregisteredActType)
    else if q.decision.ruleHashes == [] then Some(NoRule)
    else if exists r :: r in q.decision.ruleHashes && !Registered(s, "rule", r, registryCut) then Some(UnregisteredRule)
    else if exists key :: key in q.context.values && !Registered(s, "context_type", Plain(key), registryCut)
    then Some(UnregisteredContextType)
    else if q.command.payloadHash !in s.objects then Some(MissingPayload)
    else if exists p :: p in q.command.parents && p !in s.acts then Some(MissingParent)
    else None
  }

  /** The first guard that refuses a new occurrence, in the order the gate asks them. */
  function Refusal(s: Ledger, q: Submission): Option<CommitError> {
    if q.decision.outcome !in PermittedOutcomes(q.actType) then Some(OutcomeNotPermitted)
    else if !IsLifecycle(q.actType) && HasConsequence(s, CommandHash(q.command)) then Some(AlreadyConsequential)
    else if ProofFlaw(s, q).Some? then ProofFlaw(s, q)
    else if HistoryCut(s) != q.decision.cut then Some(HistoryAdvanced)
    else GovernanceFlaw(s, q)
  }

  /** The atomic placement of an Act: a replay returns what is there, a collision changes nothing. */
  function CommitAct(s: Ledger, act: Act, canon: Blob): (Ledger, Result<Act, CommitError>) {
    if act.hash in s.acts then (s, Ok(s.acts[act.hash]))
    else if act.hash in s.objects && s.objects[act.hash] != Record(canon, "act") then (s, Err(StoreRejected))
    else (Append(s, act, canon), Ok(act))
  }

  function CommandRecord(q: Submission): Record {
    Record(Canonical(SigningValue(q.command)), "command")
  }

  function ContextRecord(q: Submission): Record {
    Record(Canonical(ContextValue(q.context)), "context")
  }

  /** Store two supporting objects, then place the Act: the writes stop at the first collision. */
  function PlaceWith(s: Ledger, commandHash: Text, command: Record, contextHash: Text, context: Record,
                     act: Act, canon: Blob): (Ledger, Result<Act, CommitError>) {
    match PutObject(s, commandHash, command)
    case None => (s, Err(CasCollision))
    case Some(s1) =>
      match PutObject(s1, contextHash, context)
      case None => (s1, Err(CasCollision))
      case Some(s2) => CommitAct(s2, act, canon)
  }

  /** The writes of an accepted submission. */
  function Place(s: Ledger, q: Submission): (Ledger, Result<Act, CommitError>) {
    PlaceWith(s, CommandHash(q.command), CommandRecord(q), ContextHash(q.context), ContextRecord(q),
              ActOf(q), Canonical(CanonicalValue(q)))
  }

  /** Who may be heard at all: the Command's own Identity, with a valid signature. */
  function AuthenticityFlaw(ed: Verifier, q: Submission): Option<CommitError> {
    if q.identity.hash != q.command.identityHash then Some(IdentityMismatch)
    else if !ed(q.identity.publicKey, q.command.signature, SigningValue(q.command)) then Some(InvalidSignature)
    else None
  }

  function Commit(ed: Verifier, s: Ledger, q: Submission): (Ledger, Result<Act, CommitError>) {
    match AuthenticityFlaw(ed, q)
    case Some(flaw) => (s, Err(flaw))
    case None =>
      if ActHash(q) in s.acts then (s, Ok(s.acts[ActHash(q)]))
      else
        match Refusal(s, q)
        case Some(refusal) => (s, Err(refusal))
        case None => Place(s, q)
  }
}

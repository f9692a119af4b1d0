/**
 Exact-cut evaluation and consequential admission (service/authority.py), as functions of the
 ledger's contents.
 */
module Authority {
  import opened Canon
  import opened Types
  import opened Ledgers
  import opened Gate
  import opened Rules
  import opened Requests

  const ROOT_AUTHORITY: Text := Plain("genesis.root_authority")

  /** The configuration of one service: how signatures verify, and which rules govern. */
  datatype Service = Service(
    ed: Verifier,
    allowSigned: bool,
    root: Option<Text>,
    ruleNames: seq<Text>,
    staticRules: map<Text, Rule>)

  datatype Evaluated = Evaluated(
    identity: Identity,
    command: Command,
    context: Context,
    decision: Decision,
    actType: string,
    authChain: seq<Text>,
    payload: Option<Value>)

  // --- rule resolution ---

  function RootAuthorityRule(hash: Text, root: Text): Rule {
    Rule(hash, {}, (identity: Identity, command, context, cut) =>
      if identity.hash == root then RuleResult(Allow, "Genesis root authority applies")
      else RuleResult(Deny, "Identity does not hold Genesis root authority"))
  }

  /** The rule entry a name stands for at a cut: the highest version, the latest of equals. */
  function RuleEntry(registry: seq<Entry>, name: Text, cut: set<Text>): Option<Entry> {
    if registry == [] then None
    else
      var earlier, e := RuleEntry(registry[..|registry| - 1], name, cut), registry[|registry| - 1];
      if e.kind == "rule" && e.name == name && e.bornAt in cut
         && (earlier.None? || earlier.value.version <= e.version)
      then Some(e)
      else earlier
  }

  function ResolveOne(v: Service, registry: seq<Entry>, name: Text, cut: set<Text>): Result<Rule, ServiceError> {
    var entry := RuleEntry(registry, name, cut);
    if name in v.staticRules then
      if entry.None? || v.staticRules[name].hash != entry.value.hash then Err(Validation)
      else Ok(v.staticRules[name])
    else if name == ROOT_AUTHORITY && entry.Some? then
      if v.root.None? then Err(Unauthorized) else Ok(RootAuthorityRule(entry.value.hash, v.root.value))
    else Err(Validation)
  }

  /** The rules of the configured names, in order, or the error of the first that does not resolve. */
  function Resolve(v: Service, registry: seq<Entry>, names: seq<Text>, cut: set<Text>):
    Result<seq<Rule>, ServiceError>
  {
    if names == [] then Ok([])
    else
      match Resolve(v, registry, names[..|names| - 1], cut)
      case Err(e) => Err(e)
      case Ok(earlier) =>
        match ResolveOne(v, registry, names[|names| - 1], cut)
        case Err(e) => Err(e)
        case Ok(rule) => Ok(earlier + [rule])
  }

  // --- evaluation ---

  function PayloadFlaw(s: Ledger, r: ActionRequest): Option<ServiceError> {
    if r.payload.Some? then
      if ObjectHash("payload", r.payload.value) != r.payloadHash then Some(Validation) else None
    else if r.payloadHash !in s.objects then Some(NotFound)
    else None
  }

  function RegistryFlaw(s: Ledger, r: ActionRequest, context: Context, cut: set<Text>): Option<ServiceError> {
    if !Registered(s, "command_type", Plain(r.commandType), cut) then Some(Validation)
    else if !Registered(s, "act_type", Plain(r.actType), cut) then Some(Validation)
    else if exists key :: key in context.values && !Registered(s, "context_type", Plain(key), cut) then Some(Validation)
    else None
  }

  /** Evaluation once identity, requester and cuts are settled. */
  function Judge(v: Service, s: Ledger, r: ActionRequest, identity: Identity, command: Command, context: Context,
                 historyCut: set<Text>, registryCut: set<Text>): Result<Evaluated, ServiceError> {
    match PayloadFlaw(s, r)
    case Some(flaw) => Err(flaw)
    case None =>
      match RegistryFlaw(s, r, context, registryCut)
      case Some(flaw) => Err(flaw)
      case None =>
        match Resolve(v, s.registry, v.ruleNames, registryCut)
        case Err(e) => Err(e)
        case Ok(rules) =>
          if rules == [] then Err(Unauthorized)
          else if exists rule :: rule in RuleHashes(rules) && !Registered(s, "rule", rule, registryCut)
          then Err(Validation)
          else
            match Authorized(identity, command, context, historyCut, registryCut, rules)
            case Err(e) => Err(RuleFailure(e))
            case Ok(decision) =>
              Ok(Evaluated(identity, command, context, decision, r.actType, r.authChain, r.payload))
  }

  function HistoryCutOf(s: Ledger, r: ActionRequest): set<Text> {
    r.historyCut.GetOr(HistoryCut(s))
  }

  function RegistryCutOf(s: Ledger, r: ActionRequest): set<Text> {
    r.registryCut.GetOr(HistoryCutOf(s, r))
  }

  function Evaluate(v: Service, s: Ledger, r: ActionRequest, p: Option<Principal>): Result<Evaluated, ServiceError> {
    var historyCut, registryCut := HistoryCutOf(s, r), RegistryCutOf(s, r);
    match CommandOf(r)
    case Err(e) => Err(e)
    case Ok(command) =>
      if !IsClosedCut(s, historyCut) then Err(Validation)
      else if !IsClosedCut(s, registryCut) || !(registryCut <= historyCut) then Err(Validation)
      else if command.identityHash !in s.identities then Err(NotFound)
      else
        var identity := s.identities[command.identityHash];
        if !v.ed(identity.publicKey, command.signature, SigningValue(command)) then Err(Unauthorized)
        else
          match ResolveRequester(s, v.allowSigned, identity, p)
          case Err(e) => Err(e)
          case Ok((requestedBy, kind)) =>
            match ContextOf(r, DerivedKeys(identity, requestedBy, kind, p))
            case Err(e) => Err(e)
            case Ok(context) => Judge(v, s, r, identity, command, context, historyCut, registryCut)
  }

  // --- commit ---

  predicate SameConsequence(a: Act, e: Evaluated) {
    && a.actType == e.actType
    && a.identityHash == e.identity.hash
    && a.parents == e.command.parents
    && a.contextHash == ContextHash(e.context)
    && a.payloadHash == e.command.payloadHash
  }

  /** The consequential Act among a Command's Acts, if any: the one to replay, or a conflict. */
  function Settled(acts: seq<Act>, e: Evaluated): Result<Option<Act>, ServiceError> {
    if acts == [] then Ok(None)
    else if IsLifecycle(acts[0].actType) then Settled(acts[1..], e)
    else if !SameConsequence(acts[0], e) then Err(Conflict)
    else Ok(Some(acts[0]))
  }

  /** Only a consequential submission looks for what its Command has already settled. */
  function SettledBefore(s: Ledger, e: Evaluated): Result<Option<Act>, ServiceError> {
    if IsLifecycle(e.actType) then Ok(None) else Settled(ActsForCommand(s, CommandHash(e.command)), e)
  }

  function Replay(e: Evaluated, outcome: DecisionKind, a: Act): Evaluated {
    e.(decision := Decision(outcome, a.decisionCut, a.ruleHashes, a.registryCut, "idempotent replay of existing Act"))
  }

  function SubmissionOf(e: Evaluated, r: ActionRequest): Submission {
    Submission(e.identity, e.command, e.decision, e.context, e.actType, e.authChain, r.claimedWhen)
  }

  /** The ledger with the request's payload stored, unless something else is stored there. */
  function WithPayload(s: Ledger, r: ActionRequest): Option<Ledger> {
    if r.payload.None? then Some(s)
    else PutObject(s, r.payloadHash, Record(Canonical(r.payload.value), "payload"))
  }

  /** Submission to the gate of an evaluation whose cut is still the whole history. */
  function Admit(v: Service, s: Ledger, r: ActionRequest, e: Evaluated):
    (Ledger, Result<(Evaluated, Act), ServiceError>)
  {
    match WithPayload(s, r)
    case None => (s, Err(PayloadCollision))
    case Some(s1) =>
      var (t, answer) := Gate.Commit(v.ed, s1, SubmissionOf(e, r));
      match answer
      case Err(refusal) => (t, Err(Refused(refusal)))
      case Ok(act) => (t, Ok((if act.hash in HistoryCut(s) then Replay(e, e.decision.outcome, act) else e, act)))
  }

  function CommitEvaluated(v: Service, s: Ledger, r: ActionRequest, e: Evaluated):
    (Ledger, Result<(Evaluated, Act), ServiceError>)
  {
    if e.decision.outcome !in PermittedOutcomes(e.actType) then (s, Err(Unauthorized))
    else
      match SettledBefore(s, e)
      case Err(conflict) => (s, Err(conflict))
      case Ok(Some(act)) => (s, Ok((Replay(e, Allow, act), act)))
      case Ok(None) =>
        if e.decision.cut != HistoryCut(s) then (s, Err(Conflict)) else Admit(v, s, r, e)
  }

  function Commit(v: Service, s: Ledger, r: ActionRequest, p: Option<Principal>):
    (Ledger, Result<(Evaluated, Act), ServiceError>)
  {
    match Evaluate(v, s, r, p)
    case Err(e) => (s, Err(e))
    case Ok(e) => CommitEvaluated(v, s, r, e)
  }
}

/**
 What the authority service promises about the Acts it returns (service/authority.py).
 */
module ServiceLaws {
  import opened Canon
  import opened Types
  import opened Ledgers
  import opened Gate
  import opened History
  import opened Consequence
  import opened Rules
  import opened Requests
  import opened Authority

  // --- governance ---

  predicate IsRuleEntry(e: Entry, name: Text, cut: set<Text>) {
    e.kind == "rule" && e.name == name && e.bornAt in cut
  }

  /** An entry of the rule at the cut that no other entry outdates. */
  predicate IsLatest(registry: seq<Entry>, name: Text, cut: set<Text>, e: Entry) {
    e in registry && IsRuleEntry(e, name, cut)
    && forall f | f in registry && IsRuleEntry(f, name, cut) :: f.version <= e.version
  }

  /** A rule name stands for the highest version born in the cut, and for nothing if there is none. */
  lemma {:induction false} RuleEntryIsLatest(registry: seq<Entry>, name: Text, cut: set<Text>)
    ensures var found := RuleEntry(registry, name, cut);
            && (found.None? ==> forall e | e in registry :: !IsRuleEntry(e, name, cut))
            && (found.Some? ==> IsLatest(registry, name, cut, found.value))
  {
    if registry != [] {
      var init, last := registry[..|registry| - 1], registry[|registry| - 1];
      RuleEntryIsLatest(init, name, cut);
      forall e | e in registry ensures e in init || e == last {
        assert registry == init + [last];
      }
    }
  }

  lemma {:induction false} ResolvePointwise(v: Service, registry: seq<Entry>, names: seq<Text>, cut: set<Text>)
    requires Resolve(v, registry, names, cut).Ok?
    ensures var rules := Resolve(v, registry, names, cut).value;
            |rules| == |names| && forall i | 0 <= i < |names| :: ResolveOne(v, registry, names[i], cut) == Ok(rules[i])
  {
    if names != [] {
      ResolvePointwise(v, registry, names[..|names| - 1], cut);
    }
  }

  /** Hash i stands in the registry, at the cut, as the current version of the i-th configured rule. */
  predicate NamesRule(registry: seq<Entry>, name: Text, cut: set<Text>, hash: Text) {
    exists e | e in registry :: IsLatest(registry, name, cut, e) && e.hash == hash
  }

  lemma ResolvedRulesAreNamed(v: Service, registry: seq<Entry>, cut: set<Text>)
    requires Resolve(v, registry, v.ruleNames, cut).Ok?
    ensures var rules := Resolve(v, registry, v.ruleNames, cut).value;
            |rules| == |v.ruleNames|
            && forall i | 0 <= i < |rules| :: NamesRule(registry, v.ruleNames[i], cut, rules[i].hash)
  {
    ResolvePointwise(v, registry, v.ruleNames, cut);
    var rules := Resolve(v, registry, v.ruleNames, cut).value;
    forall i | 0 <= i < |rules| ensures NamesRule(registry, v.ruleNames[i], cut, rules[i].hash) {
      RuleEntryIsLatest(registry, v.ruleNames[i], cut);
      var e := RuleEntry(registry, v.ruleNames[i], cut).value;
      assert e.hash == rules[i].hash;
    }
  }

  predicate AllAllow(identity: Identity, command: Command, context: Context, cut: set<Text>, rules: seq<Rule>) {
    forall i | 0 <= i < |rules| :: rules[i].evaluate(identity, command, context, cut).outcome == Allow
  }

  // --- what an evaluation has established ---

  /** Every configured rule, in its registered version, took part in the decision, in order. */
  predicate Governed(v: Service, s: Ledger, e: Evaluated) {
    && Resolve(v, s.registry, v.ruleNames, e.decision.registryCut).Ok?
    && var rules := Resolve(v, s.registry, v.ruleNames, e.decision.registryCut).value;
    && rules != [] && e.decision.ruleHashes == RuleHashes(rules)
    && |rules| == |v.ruleNames|
    && (forall i | 0 <= i < |rules| ::
          && NamesRule(s.registry, v.ruleNames[i], e.decision.registryCut, rules[i].hash)
          && Registered(s, "rule", rules[i].hash, e.decision.registryCut))
    && IsMostSevere(e.decision.outcome, e.identity, e.command, e.context, e.decision.cut, rules)
  }

  /** The Context says who performed and who asked, as the ledger resolves them. */
  predicate Attributed(v: Service, s: Ledger, e: Evaluated, p: Option<Principal>) {
    && ResolveRequester(s, v.allowSigned, e.identity, p).Ok?
    && var (requestedBy, kind) := ResolveRequester(s, v.allowSigned, e.identity, p).value;
    && Truthful(e.context, DerivedKeys(e.identity, requestedBy, kind, p))
  }

  predicate Prepared(v: Service, s: Ledger, r: ActionRequest, e: Evaluated) {
    && CommandOf(r) == Ok(e.command)
    && e.actType == r.actType && e.authChain == r.authChain && e.payload == r.payload
    && e.identity.hash == e.command.identityHash
    && AuthenticityFlaw(v.ed, SubmissionOf(e, r)).None?
    && e.decision.cut == HistoryCutOf(s, r) && IsClosedCut(s, e.decision.cut)
    && e.decision.registryCut == RegistryCutOf(s, r) && IsClosedCut(s, e.decision.registryCut)
    && e.decision.registryCut <= e.decision.cut
    && PayloadFlaw(s, r).None? && RegistryFlaw(s, r, e.context, e.decision.registryCut).None?
  }

  lemma JudgeEstablishes(v: Service, s: Ledger, r: ActionRequest, identity: Identity, command: Command,
                         context: Context, historyCut: set<Text>, registryCut: set<Text>)
    requires Judge(v, s, r, identity, command, context, historyCut, registryCut).Ok?
    ensures var e := Judge(v, s, r, identity, command, context, historyCut, registryCut).value;
            && e.identity == identity && e.command == command && e.context == context
            && e.actType == r.actType && e.authChain == r.authChain && e.payload == r.payload
            && identity.hash == command.identityHash
            && e.decision.cut == historyCut && e.decision.registryCut == registryCut
            && PayloadFlaw(s, r).None? && RegistryFlaw(s, r, context, registryCut).None?
            && Governed(v, s, e)
  {
    var rules := Resolve(v, s.registry, v.ruleNames, registryCut).value;
    ResolvedRulesAreNamed(v, s.registry, registryCut);
    DecisionIsMostSevere(identity, command, context, historyCut, registryCut, rules);
    forall i | 0 <= i < |rules| ensures Registered(s, "rule", rules[i].hash, registryCut) {
      assert RuleHashes(rules)[i] in RuleHashes(rules);
    }
  }

  /** An accepted evaluation speaks for the request, at a closed cut, under every configured rule, and
      with a Context that attributes it truthfully. */
  lemma EvaluationEstablishes(v: Service, s: Ledger, r: ActionRequest, p: Option<Principal>)
    requires Evaluate(v, s, r, p).Ok?
    ensures var e := Evaluate(v, s, r, p).value;
            Prepared(v, s, r, e) && Governed(v, s, e) && Attributed(v, s, e, p)
  {
    hide Judge, Governed, ContextOf, Truthful, CanonicalValue, PayloadFlaw, RegistryFlaw;
    var command := CommandOf(r).value;
    var identity := s.identities[command.identityHash];
    var (requestedBy, kind) := ResolveRequester(s, v.allowSigned, identity, p).value;
    var derived := DerivedKeys(identity, requestedBy, kind, p);
    ContextIsTruthful(r, derived);
    JudgeEstablishes(v, s, r, identity, command, ContextOf(r, derived).value, HistoryCutOf(s, r), RegistryCutOf(s, r));
  }

  // --- what a service commit does to the ledger ---

  /** All that an accepted evaluation has established. */
  predicate Accepted(v: Service, s: Ledger, r: ActionRequest, p: Option<Principal>, e: Evaluated) {
    Prepared(v, s, r, e) && Governed(v, s, e) && Attributed(v, s, e, p)
  }

  lemma CommitWasEvaluated(v: Service, s: Ledger, r: ActionRequest, p: Option<Principal>) returns (e: Evaluated)
    requires Authority.Commit(v, s, r, p).1.Ok?
    ensures Evaluate(v, s, r, p) == Ok(e) && Accepted(v, s, r, p, e)
    ensures Authority.Commit(v, s, r, p) == CommitEvaluated(v, s, r, e)
  {
    e := Evaluate(v, s, r, p).value;
    EvaluationEstablishes(v, s, r, p);
  }

  lemma ExecuteOne(ed: Verifier, s: Ledger, step: Step)
    ensures Execute(ed, s, [step]) == Apply(ed, s, step)
  {
    assert [step][..0] == [];
  }

  lemma ExecuteTwo(ed: Verifier, s: Ledger, a: Step, b: Step)
    ensures Execute(ed, s, [a, b]) == Apply(ed, Apply(ed, s, a), b)
  {
    ExecuteOne(ed, s, a);
    assert [a, b][..1] == [a];
  }

  function PayloadStep(r: ActionRequest): Step
    requires r.payload.Some?
  {
    Put(r.payloadHash, Record(Canonical(r.payload.value), "payload"))
  }

  /** The steps a submission to the gate amounts to: the payload write, if any, and one commit. */
  function AdmissionSteps(s: Ledger, r: ActionRequest, e: Evaluated): seq<Step> {
    if WithPayload(s, r).None? then []
    else if r.payload.None? then [Submit(SubmissionOf(e, r))]
    else [PayloadStep(r), Submit(SubmissionOf(e, r))]
  }

  lemma AdmitIsRun(v: Service, s: Ledger, r: ActionRequest, e: Evaluated)
    ensures Execute(v.ed, s, AdmissionSteps(s, r, e)) == Admit(v, s, r, e).0
  {
    ExecuteOne(v.ed, s, Submit(SubmissionOf(e, r)));
    if r.payload.Some? {
      ExecuteTwo(v.ed, s, PayloadStep(r), Submit(SubmissionOf(e, r)));
    }
  }

  function StepsOf(v: Service, s: Ledger, r: ActionRequest, p: Option<Principal>): seq<Step> {
    match Evaluate(v, s, r, p)
    case Err(_) => []
    case Ok(e) =>
      if e.decision.outcome in PermittedOutcomes(e.actType) && SettledBefore(s, e) == Ok(None)
         && e.decision.cut == HistoryCut(s)
      then AdmissionSteps(s, r, e)
      else []
  }

  /** A service commit is a run of the ledger, so every law of runs holds across service calls. */
  lemma CommitIsRun(v: Service, s: Ledger, r: ActionRequest, p: Option<Principal>)
    ensures Execute(v.ed, s, StepsOf(v, s, r, p)) == Authority.Commit(v, s, r, p).0
  {
    match Evaluate(v, s, r, p)
    case Err(_) =>
    case Ok(e) => AdmitIsRun(v, s, r, e);
  }

  lemma {:induction false} SettledMember(acts: seq<Act>, e: Evaluated)
    requires Settled(acts, e).Ok? && Settled(acts, e).value.Some?
    ensures var a := Settled(acts, e).value.value;
            a in acts && !IsLifecycle(a.actType) && SameConsequence(a, e)
  {
    if IsLifecycle(acts[0].actType) {
      SettledMember(acts[1..], e);
    }
  }

  lemma SettledWasPlaced(s: Ledger, e: Evaluated, a: Act)
    requires WellFormed(s) && SettledBefore(s, e) == Ok(Some(a))
    ensures a.hash in s.acts && s.acts[a.hash] == a
    ensures a.commandHash == CommandHash(e.command) && !IsLifecycle(a.actType) && SameConsequence(a, e)
  {
    SettledMember(ActsForCommand(s, CommandHash(e.command)), e);
    OwnedMembers(s.acts, s.order, CommandHash(e.command), a);
  }

  /** Field by field, the Act is the one asked for, and its Command is the one asked for. */
  predicate Records(act: Act, r: ActionRequest) {
    && act.actType == r.actType && act.identityHash == r.identityHash && act.parents == r.parents
    && act.payloadHash == r.payloadHash && act.authChain == r.authChain && act.claimedWhen == r.claimedWhen
    && act.commandHash == ObjectHash("command", Obj(map[
         "command_type" := Str(Plain(r.commandType)),
         "identity_hash" := Str(r.identityHash),
         "nonce" := Str(r.nonce),
         "parents" := Strs(r.parents),
         "payload_hash" := Str(r.payloadHash)]))
  }

  /** What was decided is in it too: the cuts, the rules and the Context. */
  predicate Decides(act: Act, e: Evaluated) {
    && act.decisionCut == e.decision.cut && act.registryCut == e.decision.registryCut
    && act.ruleHashes == e.decision.ruleHashes && act.contextHash == ContextHash(e.context)
  }

  lemma SubmissionRecords(e: Evaluated, r: ActionRequest)
    requires Commands(r, e.command) && e.actType == r.actType && e.authChain == r.authChain
    requires e.identity.hash == e.command.identityHash
    ensures Records(ActOf(SubmissionOf(e, r)), r) && Decides(ActOf(SubmissionOf(e, r)), e)
  {
    hide CanonicalValue, IsHash;
  }

  /** A newly placed Act is the one its evaluation describes, placed on the history it was evaluated at. */
  predicate Placed(s: Ledger, t: Ledger, r: ActionRequest, e: Evaluated, act: Act) {
    && act == ActOf(SubmissionOf(e, r))
    && e.decision.outcome in PermittedOutcomes(e.actType)
    && e.decision.cut == HistoryCut(s)
    && t.order == s.order + [act.hash] && t.acts == s.acts[act.hash := act]
    && SameOn(s.objects, t.objects)
    && Justified(t.objects, t.acts, s.order, act)
    && (r.payload.Some? ==> r.payloadHash in t.objects && Addressed(r.payloadHash, t.objects[r.payloadHash]))
  }

  lemma PayloadStored(s: Ledger, r: ActionRequest)
    requires WellFormed(s) && PayloadFlaw(s, r).None? && WithPayload(s, r).Some?
    ensures var s1 := WithPayload(s, r).value;
            && WellFormed(s1) && SameOn(s.objects, s1.objects) && s1.acts == s.acts && s1.order == s.order
            && (forall h | h in s1.objects && h !in s.objects :: Addressed(h, s1.objects[h]))
            && (r.payload.Some? ==> r.payloadHash in s1.objects && Addressed(r.payloadHash, s1.objects[r.payloadHash]))
  {
  }

  /** A submission that the gate accepts is either found placed already or placed now. */
  lemma GatePlaces(ed: Verifier, s: Ledger, q: Submission, t: Ledger, act: Act)
    requires WellFormed(s) && Gate.Commit(ed, s, q) == (t, Ok(act))
    ensures act.hash == ActHash(q) && WellFormed(t) && Extends(s, t)
    ensures act.hash in s.acts ==> t == s && act == s.acts[act.hash]
    ensures act.hash !in s.acts ==>
              && act == ActOf(q) && t.order == s.order + [act.hash] && t.acts == s.acts[act.hash := act]
              && Justified(t.objects, t.acts, s.order, act)
  {
    CommitEffect(ed, s, q);
    assert ActOf(q).hash == ActHash(q);
  }

  lemma AdmitPlaces(v: Service, s: Ledger, r: ActionRequest, e: Evaluated)
    requires WellFormed(s) && PayloadFlaw(s, r).None? && Admit(v, s, r, e).1.Ok?
    requires e.decision.cut == HistoryCut(s) && e.decision.outcome in PermittedOutcomes(e.actType)
    ensures var (t, result) := Admit(v, s, r, e);
            && WellFormed(t) && Extends(s, t)
            && (result.value.1.hash !in s.acts ==> result.value.0 == e && Placed(s, t, r, e, result.value.1))
            && (result.value.1.hash in s.acts ==> t.acts == s.acts && t.order == s.order
                                                  && result.value.1.hash == ActHash(SubmissionOf(e, r))
                                                  && result.value.1 == s.acts[result.value.1.hash])
  {
    PayloadStored(s, r);
    var s1 := WithPayload(s, r).value;
    var t, act := Admit(v, s, r, e).0, Admit(v, s, r, e).1.value.1;
    GatePlaces(v.ed, s1, SubmissionOf(e, r), t, act);
    assert SameOn(s.objects, t.objects);
  }

  lemma FreshActEvaluated(v: Service, s: Ledger, r: ActionRequest, p: Option<Principal>) returns (e: Evaluated)
    requires WellFormed(s) && Authority.Commit(v, s, r, p).1.Ok?
    requires Authority.Commit(v, s, r, p).1.value.1.hash !in s.acts
    ensures Evaluate(v, s, r, p) == Ok(e)
    ensures Authority.Commit(v, s, r, p).1.value.0 == e && Accepted(v, s, r, p, e)
    ensures Placed(s, Authority.Commit(v, s, r, p).0, r, e, Authority.Commit(v, s, r, p).1.value.1)
    ensures Records(Authority.Commit(v, s, r, p).1.value.1, r) && Decides(Authority.Commit(v, s, r, p).1.value.1, e)
  {
    hide Records, Decides, Justified, Governed, Attributed, CanonicalValue, Evaluate;
    e := CommitWasEvaluated(v, s, r, p);
    FreshWasAdmitted(v, s, r, e);
    AdmitPlaces(v, s, r, e);
    CommandExactly(r, e.command);
    SubmissionRecords(e, r);
  }

  lemma FreshWasAdmitted(v: Service, s: Ledger, r: ActionRequest, e: Evaluated)
    requires WellFormed(s) && CommitEvaluated(v, s, r, e).1.Ok?
    requires CommitEvaluated(v, s, r, e).1.value.1.hash !in s.acts
    ensures CommitEvaluated(v, s, r, e) == Admit(v, s, r, e)
    ensures e.decision.cut == HistoryCut(s) && e.decision.outcome in PermittedOutcomes(e.actType)
  {
    match SettledBefore(s, e)
    case Ok(Some(act)) => SettledWasPlaced(s, e, act);
    case _ =>
  }

  /** The root's rule is in force, and no configured rule stands in its place. */
  predicate RootGoverns(v: Service) {
    Plain("genesis.root_authority") in v.ruleNames && Plain("genesis.root_authority") !in v.staticRules
  }

  /** An Act allowed by every configured rule, in its registered version at the Act's registry cut,
      that records exactly those rules in order; and the root's own, if the root's rule is in force. */
  predicate AllowedByEveryRule(v: Service, registry: seq<Entry>, e: Evaluated, act: Act) {
    && Resolve(v, registry, v.ruleNames, act.registryCut).Ok?
    && var rules := Resolve(v, registry, v.ruleNames, act.registryCut).value;
    && act.ruleHashes == RuleHashes(rules) && |rules| == |v.ruleNames| && rules != []
    && (forall i | 0 <= i < |rules| :: NamesRule(registry, v.ruleNames[i], act.registryCut, rules[i].hash))
    && AllAllow(e.identity, e.command, e.context, act.decisionCut, rules)
    && (RootGoverns(v) ==> v.root == Some(act.identityHash))
  }

  /** Every consequential Act the service newly places is allowed by every rule configured; by the root's rule
      it is the root's own. */
  lemma NewConsequenceIsGoverned(v: Service, s: Ledger, r: ActionRequest, p: Option<Principal>)
    requires WellFormed(s) && !IsLifecycle(r.actType)
    requires Authority.Commit(v, s, r, p).1.Ok? && Authority.Commit(v, s, r, p).1.value.1.hash !in s.acts
    ensures var (e, act) := Authority.Commit(v, s, r, p).1.value; AllowedByEveryRule(v, s.registry, e, act)
  {
    var e := FreshActEvaluated(v, s, r, p);
    PlacedIsAllowed(v, s, r, e);
  }

  lemma PlacedIsAllowed(v: Service, s: Ledger, r: ActionRequest, e: Evaluated)
    requires Governed(v, s, e) && e.decision.outcome in PermittedOutcomes(e.actType) && !IsLifecycle(e.actType)
    ensures AllowedByEveryRule(v, s.registry, e, ActOf(SubmissionOf(e, r)))
  {
    GovernedAllowance(v, s, e);
    if RootGoverns(v) {
      RootAllowed(v, s.registry, e);
    }
  }

  lemma RootAllowed(v: Service, registry: seq<Entry>, e: Evaluated)
    requires RootGoverns(v) && Resolve(v, registry, v.ruleNames, e.decision.registryCut).Ok?
    requires AllAllow(e.identity, e.command, e.context, e.decision.cut,
                      Resolve(v, registry, v.ruleNames, e.decision.registryCut).value)
    ensures v.root == Some(e.identity.hash)
  {
    hide RuleEntry, Resolve;
    ResolvePointwise(v, registry, v.ruleNames, e.decision.registryCut);
    var rules := Resolve(v, registry, v.ruleNames, e.decision.registryCut).value;
    var k :| 0 <= k < |v.ruleNames| && v.ruleNames[k] == Plain("genesis.root_authority");
    assert rules[k].evaluate(e.identity, e.command, e.context, e.decision.cut).outcome == Allow;
    assert ResolveOne(v, registry, v.ruleNames[k], e.decision.registryCut) == Ok(rules[k]);
  }

  lemma GovernedAllowance(v: Service, s: Ledger, e: Evaluated)
    requires Governed(v, s, e) && e.decision.outcome == Allow
    ensures var rules := Resolve(v, s.registry, v.ruleNames, e.decision.registryCut).value;
            AllAllow(e.identity, e.command, e.context, e.decision.cut, rules)
  {
    var rules := Resolve(v, s.registry, v.ruleNames, e.decision.registryCut).value;
    forall i | 0 <= i < |rules|
      ensures rules[i].evaluate(e.identity, e.command, e.context, e.decision.cut).outcome == Allow
    {
      assert Severity(rules[i].evaluate(e.identity, e.command, e.context, e.decision.cut).outcome) <= 0;
    }
  }

  // --- who acted ---

  /** What the stored Context of an Act says of a key. */
  predicate ContextSays(objects: map<Text, Record>, contextHash: Text, key: string, text: Text) {
    && contextHash in objects && objects[contextHash].canon.Canonical?
    && objects[contextHash].canon.value.Obj?
    && "values" in objects[contextHash].canon.value.fields
    && var values := objects[contextHash].canon.value.fields["values"];
    && values.Obj? && key in values.fields && values.fields[key] == Str(text)
  }

  lemma RecordedContextSays(objects: map<Text, Record>, act: Act, c: Context, key: string, text: Text)
    requires ContextOnRecord(objects, act) && act.contextHash == ContextHash(c)
    requires key in c.values && c.values[key] == Str(text)
    ensures ContextSays(objects, act.contextHash, key, text)
  {
    assert ContextValue(c).fields["values"] == Obj(c.values);
  }

  /** The stored Context names the performer, the requester and its kind, and the client; all four as
      the ledger resolved them from the principal, or from the performer where there was none. */
  predicate ContextAttributes(s: Ledger, objects: map<Text, Record>, act: Act, performer: Identity,
                              p: Option<Principal>) {
    && ContextSays(objects, act.contextHash, PERFORMED_BY, act.identityHash)
    && (p.None? ==>
          && ContextSays(objects, act.contextHash, REQUESTED_BY, act.identityHash)
          && ContextSays(objects, act.contextHash, REQUESTER_KIND, Plain(performer.kind))
          && ContextSays(objects, act.contextHash, OAUTH_CLIENT, act.identityHash))
    && (p.Some? ==>
          && ResolvePrincipal(s, p.value.issuer, p.value.subject).Some?
          && var requester := ResolvePrincipal(s, p.value.issuer, p.value.subject).value;
          && ContextSays(objects, act.contextHash, REQUESTED_BY, requester)
          && ContextSays(objects, act.contextHash, OAUTH_CLIENT, p.value.clientId)
          && (requester == act.identityHash ==>
                ContextSays(objects, act.contextHash, REQUESTER_KIND, Plain(performer.kind)))
          && (requester != act.identityHash ==>
                requester in s.identities
                && ContextSays(objects, act.contextHash, REQUESTER_KIND, Plain(s.identities[requester].kind))))
  }

  /** For every newly placed Act, and in every later state of any run, the object stored at its
      Context hash attributes it as the ledger resolved the request when it was evaluated. */
  lemma ContextTellsWhoActed(v: Service, s: Ledger, r: ActionRequest, p: Option<Principal>, steps: seq<Step>)
    requires WellFormed(s)
    requires Authority.Commit(v, s, r, p).1.Ok? && Authority.Commit(v, s, r, p).1.value.1.hash !in s.acts
    ensures var (t, result) := Authority.Commit(v, s, r, p);
            var (e, act) := result.value;
            && ContextAttributes(s, Execute(v.ed, t, steps).objects, act, e.identity, p)
            && e.identity.hash == act.identityHash
  {
    hide Execute, Authority.Commit, ContextAttributes, Governed, Truthful, CanonicalValue;
    var e := FreshActEvaluated(v, s, r, p);
    var t, act := Authority.Commit(v, s, r, p).0, Authority.Commit(v, s, r, p).1.value.1;
    PlacedIsLawful(s, t, r, e, act);
    RunLawful(v.ed, t, steps, |s.order|);
    AttributionRecorded(v, s, r, p, e, act, t.objects, Execute(v.ed, t, steps).objects);
  }

  lemma PlacedIsLawful(s: Ledger, t: Ledger, r: ActionRequest, e: Evaluated, act: Act)
    requires WellFormed(s) && Placed(s, t, r, e, act) && act.hash !in s.acts
    ensures Lawful(t, |s.order|)
  {
    PlacementWellFormed(s, t, act);
    assert t.order[..|s.order|] == s.order;
  }

  lemma DerivedFacts(performer: Identity, requestedBy: Text, kind: string, p: Option<Principal>)
    ensures var d := DerivedKeys(performer, requestedBy, kind, p);
            && d.Keys == DERIVED_CONTEXT_KEYS
            && d[PERFORMED_BY] == performer.hash && d[REQUESTED_BY] == requestedBy && d[REQUESTER_KIND] == Plain(kind)
            && d[OAUTH_CLIENT] == if p.Some? then p.value.clientId else performer.hash
  {
  }

  lemma AttributionRecorded(v: Service, s: Ledger, r: ActionRequest, p: Option<Principal>, e: Evaluated, act: Act,
                            objects: map<Text, Record>, later: map<Text, Record>)
    requires Attributed(v, s, e, p) && act == ActOf(SubmissionOf(e, r))
    requires ContextOnRecord(objects, act) && SameOn(objects, later)
    ensures ContextAttributes(s, later, act, e.identity, p)
  {
    hide CanonicalValue, ContextSays, DerivedKeys;
    var (requestedBy, kind) := ResolveRequester(s, v.allowSigned, e.identity, p).value;
    var derived := DerivedKeys(e.identity, requestedBy, kind, p);
    DerivedFacts(e.identity, requestedBy, kind, p);
    forall key | key in derived ensures ContextSays(later, act.contextHash, key, derived[key]) {
      RecordedContextSays(later, act, e.context, key, derived[key]);
    }
  }
}

/**
 On a ledger as the ceremony leaves it, the root Identity binds a principal, unbinds it, and repeats
 itself: the conditions of the service's laws are met together, whoever the root is and however it signs.
 */
module Scenario {
  import opened Canon
  import opened Types
  import opened Ledgers
  import opened Gate
  import opened History
  import opened Consequence
  import opened Rules
  import opened Requests
  import opened Authority
  import opened ServiceLaws
  import opened Idempotence
  import opened Principals
  import opened Founding
  import Base64

  datatype Kind = Linking | Revoking

  /** How signatures verify, who the root is and what it signs with, the principal it speaks of, and
      whom that and other principals are bound to before. */
  datatype Case = Case(
    ed: Verifier,
    root: Identity,
    linkSignature: Bytes,
    revokeSignature: Bytes,
    key: Key,
    bound: map<Key, Text>)

  const COMMAND_TYPES: seq<string> := ["LinkPrincipal", "RevokePrincipal"]
  const BINDING_ACT_TYPES: seq<string> := ["PrincipalLinked", "PrincipalRevoked"]
  const CONTEXT_KEYS: seq<string> := [REQUESTED_BY, PERFORMED_BY, REQUESTER_KIND, OAUTH_CLIENT]

  function CommandType(kind: Kind): string {
    if kind.Linking? then "LinkPrincipal" else "RevokePrincipal"
  }

  function ActTypeOf(kind: Kind): string {
    if kind.Linking? then "PrincipalLinked" else "PrincipalRevoked"
  }

  function SignatureOf(c: Case, kind: Kind): Bytes {
    if kind.Linking? then c.linkSignature else c.revokeSignature
  }

  function Config(c: Case): Service {
    Service(c.ed, true, Some(c.root.hash), [ROOT_AUTHORITY], map[])
  }

  function FoundedFor(c: Case): Ledger {
    FoundedLedger(c.root, Null, COMMAND_TYPES, BINDING_ACT_TYPES, CONTEXT_KEYS).(bindings := c.bound)
  }

  function Payload(c: Case): Value {
    Obj(map["issuer" := Str(c.key.0), "subject" := Str(c.key.1), "identity_hash" := Str(c.root.hash)])
  }

  function Request(c: Case, kind: Kind): ActionRequest {
    ActionRequest(CommandType(kind), c.root.hash, ObjectHash("payload", Payload(c)), [], Plain("nonce"),
                  Base64.EncodeUnpadded(SignatureOf(c, kind)), map[], map[], ActTypeOf(kind), Some(Payload(c)), None,
                  None, [], None)
  }

  function Signed(c: Case, kind: Kind): Command {
    Command(CommandType(kind), c.root.hash, ObjectHash("payload", Payload(c)), [], Plain("nonce"), SignatureOf(c, kind))
  }

  predicate Stands(c: Case) {
    && IsHash(c.root.hash) && c.root.hash != Plain("") && c.key.0 != Plain("") && c.key.1 != Plain("")
    && forall kind: Kind ::
         |SignatureOf(c, kind)| == 64 && c.ed(c.root.publicKey, SignatureOf(c, kind), SigningValue(Signed(c, kind)))
  }

  /** A ledger with the founded registry and Identity, and history closed under ancestry. */
  predicate Hosts(c: Case, s: Ledger) {
    && s.registry == FoundedFor(c).registry && s.identities == map[c.root.hash := c.root]
    && GENESIS in s.acts && IsClosedCut(s, HistoryCut(s))
  }

  lemma VocabularyKnown(c: Case, s: Ledger, kind: Kind)
    requires Hosts(c, s)
    ensures Speaks(s, COMMAND_TYPES, BINDING_ACT_TYPES, CONTEXT_KEYS)
    ensures Registered(s, "command_type", Plain(CommandType(kind)), HistoryCut(s))
    ensures Registered(s, "act_type", Plain(ActTypeOf(kind)), HistoryCut(s))
    ensures forall key | key in DERIVED_CONTEXT_KEYS :: Registered(s, "context_type", Plain(key), HistoryCut(s))
    ensures Registered(s, "rule", RULE, HistoryCut(s))
  {
    hide Registered, Vocabulary;
    Spoken(s, COMMAND_TYPES, BINDING_ACT_TYPES, CONTEXT_KEYS, HistoryCut(s));
    KindsNamed(kind);
    assert forall i | 0 <= i < 4 :: CONTEXT_KEYS[i] in CONTEXT_KEYS;
    assert DERIVED_CONTEXT_KEYS == {CONTEXT_KEYS[0], CONTEXT_KEYS[1], CONTEXT_KEYS[2], CONTEXT_KEYS[3]};
  }

  lemma KindsNamed(kind: Kind)
    ensures CommandType(kind) in COMMAND_TYPES && ActTypeOf(kind) in BINDING_ACT_TYPES
    ensures CommandType(kind) != "" && !IsLifecycle(ActTypeOf(kind))
  {
    assert COMMAND_TYPES[0] in COMMAND_TYPES && COMMAND_TYPES[1] in COMMAND_TYPES;
    assert BINDING_ACT_TYPES[0] in BINDING_ACT_TYPES && BINDING_ACT_TYPES[1] in BINDING_ACT_TYPES;
  }

  lemma CommandDecodes(c: Case, kind: Kind)
    requires Stands(c)
    ensures CommandOf(Request(c, kind)) == Ok(Signed(c, kind))
  {
    hide Payload;
    Base64.SignatureRoundTrip(SignatureOf(c, kind));
  }

  // --- the root's rule ---

  lemma OnlyRuleEntry(c: Case, e: Entry)
    requires e in FoundedFor(c).registry && e.kind == "rule"
    ensures e == RULE_ENTRY
  {
    var v := Vocabulary(COMMAND_TYPES, BINDING_ACT_TYPES, CONTEXT_KEYS);
    assert forall i | 1 <= i < |v| :: v[i].kind in {"command_type", "act_type", "context_type"};
  }

  lemma RuleResolves(c: Case, s: Ledger)
    requires Hosts(c, s)
    ensures ResolveOne(Config(c), s.registry, ROOT_AUTHORITY, HistoryCut(s)) == Ok(RootAuthorityRule(RULE, c.root.hash))
  {
    hide Vocabulary, IsClosedCut;
    var cut := HistoryCut(s);
    VocabularyHolds(COMMAND_TYPES, BINDING_ACT_TYPES, CONTEXT_KEYS);
    RuleEntryIsLatest(s.registry, ROOT_AUTHORITY, cut);
    assert RULE_ENTRY in s.registry && IsRuleEntry(RULE_ENTRY, ROOT_AUTHORITY, cut);
    OnlyRuleEntry(c, RuleEntry(s.registry, ROOT_AUTHORITY, cut).value);
  }

  lemma RulesResolve(c: Case, s: Ledger)
    requires Hosts(c, s)
    ensures Resolve(Config(c), s.registry, Config(c).ruleNames, HistoryCut(s)) ==
              Ok([RootAuthorityRule(RULE, c.root.hash)])
  {
    hide Hosts, ResolveOne, RootAuthorityRule;
    RuleResolves(c, s);
    var names, rule := Config(c).ruleNames, RootAuthorityRule(RULE, c.root.hash);
    assert |names| == 1 && names[0] == ROOT_AUTHORITY && names[..0] == [];
    assert Resolve(Config(c), s.registry, [], HistoryCut(s)) == Ok([]);
    assert [] + [rule] == [rule];
  }

  lemma RootDecides(c: Case, kind: Kind, context: Context, cut: set<Text>)
    ensures var r := Authorized(c.root, Signed(c, kind), context, cut, cut, [RootAuthorityRule(RULE, c.root.hash)]);
            && r.Ok? && r.value.outcome == Allow && r.value.cut == cut && r.value.registryCut == cut
            && r.value.ruleHashes == RuleHashes([RootAuthorityRule(RULE, c.root.hash)])
  {
    hide Payload;
    var rules := [RootAuthorityRule(RULE, c.root.hash)];
    DecisionIsMostSevere(c.root, Signed(c, kind), context, cut, cut, rules);
    assert rules[0].evaluate(c.root, Signed(c, kind), context, cut).outcome == Allow;
    assert Authorized(c.root, Signed(c, kind), context, cut, cut, rules).Ok?;
  }

  // --- evaluation ---

  function Derived(c: Case): map<string, Text> {
    DerivedKeys(c.root, c.root.hash, c.root.kind, None)
  }

  function DerivedContext(c: Case): Context {
    Context(map key | key in Derived(c) :: Str(Derived(c)[key]), map key | key in Derived(c) :: Plain(key))
  }

  lemma ContextStands(c: Case, kind: Kind)
    ensures ContextOf(Request(c, kind), Derived(c)) == Ok(DerivedContext(c))
    ensures DerivedContext(c).values.Keys == DERIVED_CONTEXT_KEYS
  {
    hide Payload;
    var r := Request(c, kind);
    assert Derived(c).Keys == DERIVED_CONTEXT_KEYS;
    assert r.contextValues + (map key | key in Derived(c) :: Str(Derived(c)[key])) == DerivedContext(c).values;
    assert r.contextTypes + (map key | key in Derived(c) :: Plain(key)) == DerivedContext(c).types;
  }

  /** Nothing about the request stands in the way of a decision. */
  lemma RequestStands(c: Case, kind: Kind, s: Ledger)
    requires Hosts(c, s)
    ensures PayloadFlaw(s, Request(c, kind)).None?
    ensures RegistryFlaw(s, Request(c, kind), DerivedContext(c), HistoryCut(s)).None?
  {
    hide Registered, Hosts, DerivedContext, Payload, CommandType, ActTypeOf;
    VocabularyKnown(c, s, kind);
    ContextStands(c, kind);
  }

  /** An evaluation in the root's favour, at the whole history. */
  predicate Favours(c: Case, kind: Kind, s: Ledger, e: Evaluated) {
    && e.decision.outcome == Allow && e.actType == ActTypeOf(kind) && e.command == Signed(c, kind)
    && e.context == DerivedContext(c) && e.identity == c.root && e.authChain == []
    && e.decision.cut == HistoryCut(s) && e.decision.registryCut == HistoryCut(s) && e.decision.ruleHashes == [RULE]
  }

  lemma RequestJudged(c: Case, kind: Kind, s: Ledger) returns (e: Evaluated)
    requires Hosts(c, s)
    ensures Judge(Config(c), s, Request(c, kind), c.root, Signed(c, kind), DerivedContext(c), HistoryCut(s),
                  HistoryCut(s)) == Ok(e)
    ensures Favours(c, kind, s, e)
  {
    hide Registered, Hosts, PayloadFlaw, RegistryFlaw, Resolve, Authorized, DerivedContext, Signed, Payload, ActTypeOf;
    RequestStands(c, kind, s);
    RulesResolve(c, s);
    VocabularyKnown(c, s, kind);
    RootDecides(c, kind, DerivedContext(c), HistoryCut(s));
    var rules := [RootAuthorityRule(RULE, c.root.hash)];
    assert RuleHashes(rules) == [RULE];
    var decision := Authorized(c.root, Signed(c, kind), DerivedContext(c), HistoryCut(s), HistoryCut(s), rules).value;
    e := Evaluated(c.root, Signed(c, kind), DerivedContext(c), decision, ActTypeOf(kind), [], Some(Payload(c)));
  }

  /** The root's request is allowed on every ledger that hosts it. */
  lemma RequestAllowed(c: Case, kind: Kind, s: Ledger) returns (e: Evaluated)
    requires Stands(c) && Hosts(c, s)
    ensures Evaluate(Config(c), s, Request(c, kind), None) == Ok(e) && Favours(c, kind, s, e)
  {
    hide Judge, ContextOf, DerivedContext, CommandOf, Registered, Favours, Payload;
    CommandDecodes(c, kind);
    ContextStands(c, kind);
    e := RequestJudged(c, kind, s);
    assert ResolveRequester(s, true, c.root, None) == Ok((c.root.hash, c.root.kind));
  }

  // --- a request places its Act ---

  predicate Asks(c: Case, kind: Kind, q: Submission, cut: set<Text>) {
    && q.identity == c.root && q.command == Signed(c, kind) && q.context == DerivedContext(c)
    && q.actType == ActTypeOf(kind) && q.authChain == []
    && q.decision.outcome == Allow && q.decision.ruleHashes == [RULE]
    && q.decision.cut == cut && q.decision.registryCut == cut
  }

  lemma RequestGoverned(c: Case, kind: Kind, s: Ledger, q: Submission)
    requires Hosts(c, s) && Asks(c, kind, q, HistoryCut(s)) && Signed(c, kind).payloadHash in s.objects
    ensures GovernanceFlaw(s, q).None?
  {
    hide Hosts, Registered, Payload, DerivedContext, CommandType, ActTypeOf;
    VocabularyKnown(c, s, kind);
    ContextStands(c, kind);
  }

  /** A ledger on which the root's Command is new. */
  predicate Ready(c: Case, kind: Kind, s: Ledger) {
    Hosts(c, s) && WellFormed(s) && Honest(s) && ActsForCommand(s, CommandHash(Signed(c, kind))) == []
  }

  /** A Command that owns nothing has no consequence and no review before it. */
  lemma Unowned(c: Case, kind: Kind, s: Ledger, q: Submission)
    requires ActsForCommand(s, CommandHash(Signed(c, kind))) == [] && Asks(c, kind, q, HistoryCut(s))
    requires GovernanceFlaw(s, q).None?
    ensures Refusal(s, q).None?
  {
    hide GovernanceFlaw, ActsForCommand, CommandHash, Signed, DerivedContext;
    KindsNamed(kind);
  }

  lemma StartReady(c: Case, kind: Kind)
    ensures Ready(c, kind, FoundedFor(c)) && SingleConsequence(FoundedFor(c))
    ensures FoundedFor(c).order == [GENESIS] && FoundedFor(c).bindings == c.bound
  {
    hide Vocabulary, Signed;
    FoundedSpeaks(c.root, Null, COMMAND_TYPES, BINDING_ACT_TYPES, CONTEXT_KEYS);
    FoundedOwnsNothing(c.root, Null, COMMAND_TYPES, BINDING_ACT_TYPES, CONTEXT_KEYS, CommandHash(Signed(c, kind)));
    assert "payload"[0] !in {'c', 'a'};
    assert ToSet(Seed(c.root).parents) == {};
  }

  /** The ledger with the payload stored is as ready. */
  lemma PayloadAdmitted(c: Case, kind: Kind, s: Ledger)
    requires Ready(c, kind, s)
    ensures WithPayload(s, Request(c, kind)).Some? ==>
              var t := WithPayload(s, Request(c, kind)).value;
              && Ready(c, kind, t) && Signed(c, kind).payloadHash in t.objects && t.order == s.order
              && t.acts == s.acts && t.registry == s.registry && t.identities == s.identities
  {
    hide Vocabulary, CommandHash, FoundedFor, Payload;
    assert "payload"[0] !in {'c', 'a'};
  }

  /** Nothing else is stored where the payload goes. */
  predicate PayloadFree(c: Case, s: Ledger) {
    var h := ObjectHash("payload", Payload(c));
    h in s.objects ==> s.objects[h] == Record(Canonical(Payload(c)), "payload")
  }

  lemma FreeIsAdmitted(c: Case, kind: Kind, s: Ledger)
    requires PayloadFree(c, s)
    ensures WithPayload(s, Request(c, kind)).Some?
  {
    hide Payload;
  }

  lemma GateAccepts(ed: Verifier, s: Ledger, q: Submission)
    requires WellFormed(s) && Honest(s)
    requires AuthenticityFlaw(ed, q).None? && ActHash(q) !in s.acts && Refusal(s, q).None?
    ensures var (t, r) := Gate.Commit(ed, s, q);
            && r == Ok(ActOf(q)) && t.acts == s.acts[ActHash(q) := ActOf(q)] && t.order == s.order + [ActHash(q)]
            && t.registry == s.registry && t.identities == s.identities && t.bindings == s.bindings
            && WellFormed(t) && Honest(t) && SameOn(s.objects, t.objects)
            && forall h | h in t.objects && h !in s.objects :: Addressed(h, t.objects[h])
  {
    hide Gate.Commit, Refusal, Honest, WellFormed, ActHash, ActOf, Justified, SigningValue;
    HonestAcceptance(ed, s, q);
    CommitEffect(ed, s, q);
    CommitLeavesAddressed(ed, s, q);
  }

  /** What a request leaves behind that is answered with a fresh Act. */
  predicate Places(c: Case, kind: Kind, s: Ledger, t: Ledger, act: Act) {
    && act.hash !in s.acts && t.acts == s.acts[act.hash := act] && t.order == s.order + [act.hash]
    && act.actType == ActTypeOf(kind) && act.commandHash == CommandHash(Signed(c, kind)) && act.parents == []
    && act.payloadHash == ObjectHash("payload", Payload(c)) && act.identityHash == c.root.hash
    && act.contextHash == ContextHash(DerivedContext(c))
    && t.registry == s.registry && t.identities == s.identities
    && WellFormed(t) && Honest(t) && PayloadFree(c, t)
  }

  lemma StillFree(c: Case, s: Ledger, t: Ledger)
    requires PayloadFree(c, s) && SameOn(s.objects, t.objects)
    requires forall h | h in t.objects && h !in s.objects :: Addressed(h, t.objects[h])
    ensures PayloadFree(c, t)
  {
    hide Payload;
  }

  lemma SubmissionAccepted(c: Case, kind: Kind, s: Ledger, e: Evaluated)
    requires Ready(c, kind, s) && PayloadFree(c, s)
    requires AuthenticityFlaw(c.ed, SubmissionOf(e, Request(c, kind))).None?
    requires Asks(c, kind, SubmissionOf(e, Request(c, kind)), HistoryCut(s))
    ensures var (t, r) := Admit(Config(c), s, Request(c, kind), e);
            r.Ok? && Places(c, kind, s, t, r.value.1)
  {
    hide Gate.Commit, Refusal, Hosts, Honest, Signed, FoundedFor, ActHash, CommandHash, WellFormed, Payload;
    hide GovernanceFlaw, AuthenticityFlaw, ActsForCommand, SubmissionOf, WithPayload, Request, DerivedContext;
    hide PayloadFree, ActTypeOf;
    hide Asks, Places, CanonicalValue;
    var q := SubmissionOf(e, Request(c, kind));
    FreeIsAdmitted(c, kind, s);
    PayloadAdmitted(c, kind, s);
    var s1 := WithPayload(s, Request(c, kind)).value;
    RequestGoverned(c, kind, s1, q);
    Unowned(c, kind, s1, q);
    PresentAsked(c, kind, s1, q);
    GateAccepts(c.ed, s1, q);
    PayloadNowFree(c, kind, s);
    var t := Gate.Commit(c.ed, s1, q).0;
    StillFree(c, s1, t);
    AskedPlaces(c, kind, s, s1, t, q);
  }

  lemma PresentAsked(c: Case, kind: Kind, s: Ledger, q: Submission)
    requires Asks(c, kind, q, HistoryCut(s))
    ensures ActHash(q) !in s.acts
  {
    PresentIsUnplaced(s, q);
  }

  lemma PayloadNowFree(c: Case, kind: Kind, s: Ledger)
    requires WithPayload(s, Request(c, kind)).Some?
    ensures PayloadFree(c, WithPayload(s, Request(c, kind)).value)
  {
    hide Payload;
  }

  lemma AskedPlaces(c: Case, kind: Kind, s: Ledger, s1: Ledger, t: Ledger, q: Submission)
    requires Asks(c, kind, q, HistoryCut(s)) && ActHash(q) !in s1.acts && s1.acts == s.acts && s1.order == s.order
    requires s1.registry == s.registry && s1.identities == s.identities
    requires t.acts == s1.acts[ActHash(q) := ActOf(q)] && t.order == s1.order + [ActHash(q)]
    requires t.registry == s1.registry && t.identities == s1.identities
    requires WellFormed(t) && Honest(t) && PayloadFree(c, t)
    ensures Places(c, kind, s, t, ActOf(q))
  {
    hide Payload, CanonicalValue, SigningValue, DerivedContext, Honest, WellFormed, PayloadFree;
  }

  lemma Admitted(c: Case, kind: Kind, s: Ledger, e: Evaluated)
    requires Evaluate(Config(c), s, Request(c, kind), None) == Ok(e) && Favours(c, kind, s, e)
    requires ActsForCommand(s, CommandHash(Signed(c, kind))) == []
    ensures Authority.Commit(Config(c), s, Request(c, kind), None) == Admit(Config(c), s, Request(c, kind), e)
  {
    hide Evaluate, Admit, Config, Signed, CommandHash, ActsForCommand, DerivedContext, Request;
    KindsNamed(kind);
    assert SettledBefore(s, e) == Ok(None);
  }

  lemma Authentic(c: Case, kind: Kind, s: Ledger, e: Evaluated)
    requires Stands(c) && Favours(c, kind, s, e)
    ensures AuthenticityFlaw(c.ed, SubmissionOf(e, Request(c, kind))).None?
    ensures Asks(c, kind, SubmissionOf(e, Request(c, kind)), HistoryCut(s))
  {
    hide DerivedContext, Payload;
  }

  lemma GrownHosts(c: Case, kind: Kind, s: Ledger, t: Ledger, act: Act)
    requires Hosts(c, s) && Places(c, kind, s, t, act)
    ensures Hosts(c, t)
  {
    hide Vocabulary, Signed, Payload, Honest;
    assert ToSet(act.parents) == {};
    forall h | h in HistoryCut(t) ensures ToSet(t.acts[h].parents) <= HistoryCut(t) {
      assert h == act.hash || (h in HistoryCut(s) && t.acts[h] == s.acts[h]);
    }
  }

  /** On a ledger where its Command is new, the service accepts the root's request and places its Act. */
  lemma RequestPlaces(c: Case, kind: Kind, s: Ledger) returns (act: Act)
    requires Stands(c) && Ready(c, kind, s) && PayloadFree(c, s)
    ensures var (t, r) := Authority.Commit(Config(c), s, Request(c, kind), None);
            r.Ok? && r.value.1 == act && Places(c, kind, s, t, act) && Hosts(c, t)
  {
    hide Evaluate, Authority.Commit, Admit, Config, DerivedContext, Hosts, AuthenticityFlaw, Signed, Honest;
    hide Stands, Request, Places, ActsForCommand, Favours, Asks, PayloadFree, WellFormed, CommandHash;
    var e := RequestAllowed(c, kind, s);
    Admitted(c, kind, s, e);
    Authentic(c, kind, s, e);
    SubmissionAccepted(c, kind, s, e);
    act := Admit(Config(c), s, Request(c, kind), e).1.value.1;
    GrownHosts(c, kind, s, Admit(Config(c), s, Request(c, kind), e).0, act);
  }

  lemma StartFree(c: Case)
    ensures PayloadFree(c, FoundedFor(c))
  {
    hide Vocabulary;
  }

  /** The service accepts the root's link on the founded ledger. */
  lemma FirstRequestPlaces(c: Case) returns (act: Act)
    requires Stands(c)
    ensures var (t, r) := Authority.Commit(Config(c), FoundedFor(c), Request(c, Linking), None);
            r.Ok? && r.value.1 == act && Places(c, Linking, FoundedFor(c), t, act) && Hosts(c, t)
  {
    hide Authority.Commit, FoundedFor, Config, Request, Stands, Places, Hosts, PayloadFree, Ready;
    StartReady(c, Linking);
    StartFree(c);
    act := RequestPlaces(c, Linking, FoundedFor(c));
  }

  /** Asked again, it is given the Act that is there, and nothing changes. */
  lemma SecondRequestReplays(c: Case)
    requires Stands(c)
    ensures var (t, r) := Authority.Commit(Config(c), FoundedFor(c), Request(c, Linking), None);
            var (u, r') := Authority.Commit(Config(c), t, Request(c, Linking), None);
            u == t && r.Ok? && r'.Ok? && r'.value.1 == r.value.1
  {
    hide Evaluate, Authority.Commit, FoundedFor, Config, Signed, DerivedContext, Hosts, Request, Stands, Places, Honest;
    hide ActsForCommand, CommandHash;
    StartReady(c, Linking);
    var act := FirstRequestPlaces(c);
    var t := Authority.Commit(Config(c), FoundedFor(c), Request(c, Linking), None).0;
    var e := RequestAllowed(c, Linking, FoundedFor(c));
    var e' := RequestAllowed(c, Linking, t);
    assert Execute(Config(c).ed, t, []) == t;
    Consequential(c, Linking);
    ServiceIdempotent(Config(c), FoundedFor(c), Request(c, Linking), None, [], Request(c, Linking), None);
  }

  lemma Consequential(c: Case, kind: Kind)
    ensures !IsLifecycle(Request(c, kind).actType)
  {
    KindsNamed(kind);
  }

  // --- as a link and as a revocation ---

  lemma PayloadFields(c: Case)
    requires Stands(c)
    ensures FieldText(Payload(c), "issuer") == Some(c.key.0) && FieldText(Payload(c), "subject") == Some(c.key.1)
    ensures FieldText(Payload(c), "identity_hash") == Some(c.root.hash) && Payload(c).Obj?
  {
    hide SigningValue, Signed;
    var fields := Payload(c).fields;
    assert fields["issuer"] == Str(c.key.0) && fields["subject"] == Str(c.key.1);
    assert fields["identity_hash"] == Str(c.root.hash);
  }

  lemma FormMet(c: Case)
    requires Stands(c)
    ensures IsLink(Request(c, Linking)) && IsRevoke(Request(c, Revoking))
  {
    hide Payload, FieldText, Stands;
    PayloadFields(c);
    assert forall name | name in LINK_FIELDS :: name == "issuer" || name == "subject" || name == "identity_hash";
    assert forall name | name in REVOKE_FIELDS :: name == "issuer" || name == "subject";
  }

  lemma FormTargets(c: Case)
    requires Stands(c) && IsLink(Request(c, Linking)) && IsRevoke(Request(c, Revoking))
    ensures TargetOf(Request(c, Linking)) == c.key && LinkedIdentity(Request(c, Linking)) == c.root.hash
    ensures TargetOf(Request(c, Revoking)) == c.key
  {
    hide Payload, FieldText, Stands;
    PayloadFields(c);
  }
}

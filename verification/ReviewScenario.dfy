/**
 A Command put under review on a ledger as the ceremony leaves it: requested, reviewed by somebody else,
 resolved and carried out, each by one request to the authority service, whoever the parties are, however
 they sign, whatever is asked for and whatever else the rule says.
 */
module ReviewScenario {
  import opened Canon
  import opened Types
  import opened Ledgers
  import opened Gate
  import opened History
  import opened Consequence
  import opened Rules
  import opened Requests
  import opened Authority
  import opened ServiceLaws
  import opened Idempotence
  import opened Acceptance
  import opened Evaluations
  import opened Admission
  import opened Founding
  import opened Lifecycle
  import Base64

  datatype Case = Case(
    ed: Verifier,
    author: Identity,
    reviewer: Identity,
    commandType: string,
    actType: string,
    payload: Value,
    signature: Bytes,
    reviewSignature: Bytes,
    claimedWhen: Option<Text>,
    rule: Rule)

  const REVIEW_STAGES: seq<string> := ["ReviewRequested", "AuthorizationReviewed", "AuthorizationResolved"]
  const CONTEXT_KEYS: seq<string> := [REQUESTED_BY, PERFORMED_BY, REQUESTER_KIND, OAUTH_CLIENT]

  function CommandTypes(c: Case): seq<string> {
    [c.commandType, "ReviewAuthorization"]
  }

  function ActTypes(c: Case): seq<string> {
    REVIEW_STAGES + [c.actType]
  }

  function Config(c: Case): Service {
    Service(c.ed, true, None, [ROOT_AUTHORITY], map[ROOT_AUTHORITY := c.rule])
  }

  function Reviewed(c: Case): Ledger {
    FoundedLedger(c.author, c.payload, CommandTypes(c), ActTypes(c), CONTEXT_KEYS)
      .(identities := map[c.author.hash := c.author, c.reviewer.hash := c.reviewer])
  }

  /** The Command under review, and the Command that reviews it. */
  function Proposal(c: Case): Command {
    Command(c.commandType, c.author.hash, ObjectHash("payload", c.payload), [], Plain("nonce"), c.signature)
  }

  function Verdict(c: Case): Value {
    Obj(map["reviewed_command_hash" := Str(CommandHash(Proposal(c)))])
  }

  function Review(c: Case): Command {
    Command("ReviewAuthorization", c.reviewer.hash, ObjectHash("payload", Verdict(c)), [], Plain("nonce"),
            c.reviewSignature)
  }

  /** A request to do something with the author's Command. */
  function Request(c: Case, actType: string, chain: seq<Text>): ActionRequest {
    ActionRequest(c.commandType, c.author.hash, ObjectHash("payload", c.payload), [], Plain("nonce"),
                  Base64.EncodeUnpadded(c.signature), map[], map[], actType, None, None, None, chain, c.claimedWhen)
  }

  function ReviewRequest(c: Case): ActionRequest {
    ActionRequest("ReviewAuthorization", c.reviewer.hash, ObjectHash("payload", Verdict(c)), [], Plain("nonce"),
                  Base64.EncodeUnpadded(c.reviewSignature), map[], map[], "AuthorizationReviewed", Some(Verdict(c)),
                  None, None, [], c.claimedWhen)
  }

  /** The rule calls for review of the author's Command at first, lets the reviewer review, and allows the
      Command once two more Acts are in history. */
  ghost predicate RuleFits(c: Case) {
    && c.rule.hash == RULE && c.rule.contextKeys <= DERIVED_CONTEXT_KEYS
    && (forall context, cut: set<Text> | |cut| == 1 ::
          c.rule.evaluate(c.author, Proposal(c), context, cut).outcome == RequireReview)
    && (forall context, cut: set<Text> :: c.rule.evaluate(c.reviewer, Review(c), context, cut).outcome == Allow)
    && (forall context, cut: set<Text> | |cut| >= 3 ::
          c.rule.evaluate(c.author, Proposal(c), context, cut).outcome == Allow)
  }

  ghost predicate Stands(c: Case) {
    && IsHash(c.author.hash) && IsHash(c.reviewer.hash) && c.author.hash != c.reviewer.hash
    && !IsLifecycle(c.actType) && |c.signature| == 64 && |c.reviewSignature| == 64
    && c.ed(c.author.publicKey, c.signature, SigningValue(Proposal(c)))
    && c.ed(c.reviewer.publicKey, c.reviewSignature, SigningValue(Review(c)))
    && RuleFits(c)
  }

  /** There are such cases: anything signs, and the rule asks who speaks and how much has happened. */
  lemma SomeCaseStands(commandType: string, payload: Value) returns (c: Case)
    ensures Stands(c) && c.commandType == commandType && c.payload == payload
  {
    var author := Identity(Digest("identity", Bool(false)), "human", []);
    var reviewer := Identity(Digest("identity", Bool(true)), "human", []);
    var rule := Rule(RULE, {}, (identity: Identity, command, context, cut: set<Text>) =>
      if identity == reviewer || |cut| >= 3 then RuleResult(Allow, "") else RuleResult(RequireReview, ""));
    var signature: Bytes := seq(64, _ => 0);
    c := Case((key, sent, value) => true, author, reviewer, commandType, "PrincipalLinked", payload, signature,
              signature, None, rule);
  }

  // --- a ledger on which such a request can be evaluated ---

  /** The founded vocabulary and parties, the proposal's payload, addressed objects and Acts without parents. */
  predicate Hosts(c: Case, s: Ledger) {
    && WellFormed(s) && AllAddressed(s.objects) && s.registry == Reviewed(c).registry
    && s.identities == Reviewed(c).identities && GENESIS in s.acts
    && ObjectHash("payload", c.payload) in s.objects && forall h | h in s.acts :: s.acts[h].parents == []
  }

  lemma StartHosts(c: Case)
    ensures Hosts(c, Reviewed(c)) && Reviewed(c).order == [GENESIS]
    ensures Reviewed(c).acts == map[GENESIS := Seed(c.author)]
  {
    hide Vocabulary, Request, Proposal, Review;
  }

  /** The Context of a request that supplies nothing, made by its performer. */
  function Bare(performer: Identity): Context {
    Context(Layered(map[], Str(performer.hash), Str(performer.hash), Str(Plain(performer.kind)), Str(performer.hash)),
            Layered(map[], Plain("request.requested_by"), Plain("request.performed_by"),
                    Plain("request.requester_kind"), Plain("request.oauth_client")))
  }

  lemma BareFrames(r: ActionRequest, performer: Identity)
    requires r.contextValues == map[] && r.contextTypes == map[]
    ensures Framed(r, Bare(performer), performer, None, performer.hash, performer.kind)
    ensures Bare(performer).values.Keys == DERIVED_CONTEXT_KEYS
  {
  }

  lemma WordEnters(s: Ledger, kind: string, names: seq<string>, cut: set<Text>)
    requires forall name | name in names :: Registered(s, kind, Plain(name), cut)
    ensures forall name | name in names :: exists e | e in s.registry :: Enters(e, kind, Plain(name), cut)
  {
    hide Registered, Enters;
    forall name | name in names ensures exists e | e in s.registry :: Enters(e, kind, Plain(name), cut) {
      EntersExactly(s, kind, Plain(name), cut);
    }
  }

  lemma HostsSpeaks(c: Case, s: Ledger)
    requires Hosts(c, s)
    ensures Speaks(s, CommandTypes(c), ActTypes(c), CONTEXT_KEYS)
  {
    hide Vocabulary, CommandTypes, ActTypes;
  }

  lemma KeysNamed()
    ensures forall key | key in DERIVED_CONTEXT_KEYS :: key in CONTEXT_KEYS
  {
    assert forall i | 0 <= i < 4 :: CONTEXT_KEYS[i] in CONTEXT_KEYS;
    assert DERIVED_CONTEXT_KEYS == {CONTEXT_KEYS[0], CONTEXT_KEYS[1], CONTEXT_KEYS[2], CONTEXT_KEYS[3]};
  }

  lemma WordsEnter(c: Case, s: Ledger, cut: set<Text>)
    requires Hosts(c, s) && GENESIS in cut
    ensures forall name | name in CommandTypes(c) ::
              exists e | e in s.registry :: Enters(e, "command_type", Plain(name), cut)
    ensures forall name | name in ActTypes(c) :: exists e | e in s.registry :: Enters(e, "act_type", Plain(name), cut)
    ensures forall key | key in CONTEXT_KEYS :: exists e | e in s.registry :: Enters(e, "context_type", Plain(key), cut)
  {
    hide Hosts, Speaks, Registered, Enters, CommandTypes, ActTypes;
    HostsSpeaks(c, s);
    Spoken(s, CommandTypes(c), ActTypes(c), CONTEXT_KEYS, cut);
    WordEnters(s, "command_type", CommandTypes(c), cut);
    WordEnters(s, "act_type", ActTypes(c), cut);
    WordEnters(s, "context_type", CONTEXT_KEYS, cut);
  }

  lemma RuleRuns(c: Case, s: Ledger, cut: set<Text>)
    requires Hosts(c, s) && GENESIS in cut && c.rule.hash == RULE
    ensures RunsAs(Config(c), s.registry, ROOT_AUTHORITY, cut, RULE)
  {
    hide CommandTypes, ActTypes;
    var v := s.registry;
    assert v[0] == RULE_ENTRY;
    assert forall i | 1 <= i < |v| :: v[i].kind in {"command_type", "act_type", "context_type"};
    assert Runs(Config(c), v, ROOT_AUTHORITY, cut, 0);
  }

  /** A request that supplies no Context, names no cut and has no parents. */
  predicate Plainly(r: ActionRequest) {
    r.contextValues == map[] && r.contextTypes == map[] && r.historyCut.None? && r.registryCut.None? && r.parents == []
  }

  /** What such a request evaluates to. */
  function Judgement(s: Ledger, r: ActionRequest, performer: Identity, command: Command, outcome: DecisionKind):
    Evaluated
  {
    Evaluated(performer, command, Bare(performer), Decision(outcome, s.acts.Keys, [RULE], s.acts.Keys, ""), r.actType,
              r.authChain, r.payload)
  }

  /** Nothing in the request stands in the way of its evaluation. */
  predicate Presents(c: Case, s: Ledger, r: ActionRequest, performer: Identity, command: Command) {
    && Plainly(r) && Commands(r, command) && performer.hash == r.identityHash
    && (performer == c.author || performer == c.reviewer)
    && c.ed(performer.publicKey, command.signature, SigningValue(command))
    && r.commandType in CommandTypes(c) && r.actType in ActTypes(c)
    && if r.payload.Some? then r.payloadHash == ObjectHash("payload", r.payload.value) else r.payloadHash in s.objects
  }

  lemma RequestSpeaks(c: Case, s: Ledger, r: ActionRequest, performer: Identity, command: Command)
    requires Hosts(c, s) && Presents(c, s, r, performer, command)
    ensures Speakable(s, r, Bare(performer), s.acts.Keys)
  {
    hide Enters, CommandTypes, ActTypes, Bare, Commands, SigningValue;
    BareFrames(r, performer);
    KeysNamed();
    WordsEnter(c, s, s.acts.Keys);
  }

  lemma RequestKnown(c: Case, s: Ledger, r: ActionRequest, performer: Identity, command: Command, outcome: DecisionKind)
    requires c.author.hash != c.reviewer.hash && Hosts(c, s) && Presents(c, s, r, performer, command)
    ensures var e := Judgement(s, r, performer, command, outcome);
            Parties(Config(c), s, r, None, e) && Cuts(s, r, e.decision.cut, e.decision.registryCut)
  {
    hide CommandTypes, ActTypes, Bare, SigningValue, Framed, Vocabulary;
    BareFrames(r, performer);
    assert Asked(s, true, performer, None, performer.hash, performer.kind);
  }

  /** A decision of the rule is what such a request evaluates to. */
  lemma RequestStands(c: Case, s: Ledger, r: ActionRequest, performer: Identity, command: Command,
                      outcome: DecisionKind)
    requires Stands(c) && Hosts(c, s) && Presents(c, s, r, performer, command)
    requires c.rule.evaluate(performer, command, Bare(performer), s.acts.Keys).outcome == outcome
    ensures Grounds(Config(c), s, r, None, Judgement(s, r, performer, command, outcome))
  {
    hide Parties, Cuts, Speakable, Decided, RunsAs, Config, Bare, Hosts;
    var e := Judgement(s, r, performer, command, outcome);
    BareFrames(r, performer);
    RequestKnown(c, s, r, performer, command, outcome);
    RequestSpeaks(c, s, r, performer, command);
    GenesisKnown(c, s);
    RuleRuns(c, s, s.acts.Keys);
    RuleDecides(c, s, e);
  }

  lemma GenesisKnown(c: Case, s: Ledger)
    requires Hosts(c, s)
    ensures GENESIS in s.acts && WellFormed(s) && AllAddressed(s.objects)
  {
  }

  lemma RuleDecides(c: Case, s: Ledger, e: Evaluated)
    requires c.rule.contextKeys <= DERIVED_CONTEXT_KEYS && e.context.values.Keys == DERIVED_CONTEXT_KEYS
    requires e.identity.hash == e.command.identityHash && e.decision.ruleHashes == [RULE]
    requires RunsAs(Config(c), s.registry, ROOT_AUTHORITY, e.decision.registryCut, RULE)
    requires c.rule.evaluate(e.identity, e.command, e.context, e.decision.cut).outcome == e.decision.outcome
    ensures Decided(Config(c), s.registry, e)
  {
    hide RunsAs;
    assert ROOT_AUTHORITY in Config(c).ruleNames && Judges(Config(c), e, ROOT_AUTHORITY, e.decision.outcome);
  }

  // --- one request, one Act ---

  /** One more Act, the one asked for, on a ledger that hosts as before. */
  predicate Adds(c: Case, s: Ledger, t: Ledger, r: ActionRequest, act: Act) {
    && act.hash !in s.acts && t.acts == s.acts[act.hash := act] && t.order == s.order + [act.hash]
    && Records(act, r) && SameOn(s.objects, t.objects) && Hosts(c, t)
    && (r.payload.Some? ==>
          r.payloadHash in t.objects && t.objects[r.payloadHash] == Record(Canonical(r.payload.value), "payload"))
  }

  /** What the gate asks beyond a standing evaluation. */
  ghost predicate GateOpen(ed: Verifier, s: Ledger, e: Evaluated, r: ActionRequest) {
    forall refusal: CommitError | LeftOpen(refusal) :: Meets(ed, s, SubmissionOf(e, r), refusal)
  }

  lemma OpenWhatever(ed: Verifier, s: Ledger, e: Evaluated, r: ActionRequest, reason: string)
    requires GateOpen(ed, s, e, r)
    ensures GateOpen(ed, s, Because(e, reason), r)
  {
    hide CanonicalValue, SigningValue, Names, Enters;
    var q, q' := SubmissionOf(e, r), SubmissionOf(Because(e, reason), r);
    forall refusal: CommitError | LeftOpen(refusal) ensures Meets(ed, s, q', refusal) {
      assert Meets(ed, s, q, refusal);
    }
  }

  lemma GrownHosts(c: Case, s: Ledger, s1: Ledger, q: Submission)
    requires Hosts(c, s) && s1.acts == s.acts && s1.order == s.order && SameOn(s.objects, s1.objects)
    requires s1.registry == s.registry && s1.identities == s.identities && AllAddressed(s1.objects)
    requires ActHash(q) !in s.acts && q.command.parents == []
    ensures Hosts(c, AfterPlacing(s1, q)) && SameOn(s1.objects, AfterPlacing(s1, q).objects)
  {
    hide Vocabulary, CanonicalValue, SigningValue, ContextValue, CommandTypes, ActTypes;
    PlacedGrows(s1, q);
    PlacementWellFormed(s1, AfterPlacing(s1, q), ActOf(q));
  }

  /** The ledger with a request's payload stored. */
  function Stocked(s: Ledger, r: ActionRequest): Ledger {
    WithPayload(s, r).GetOr(s)
  }

  /** A request that presents itself, with a decision of the rule that the gate is open to, is answered with
      the Act it asks for. */
  lemma RequestPlaces(c: Case, s: Ledger, r: ActionRequest, performer: Identity, command: Command,
                      outcome: DecisionKind) returns (t: Ledger, act: Act)
    requires Stands(c) && Hosts(c, s) && Presents(c, s, r, performer, command)
    requires c.rule.evaluate(performer, command, Bare(performer), s.acts.Keys).outcome == outcome
    requires GateOpen(c.ed, Stocked(s, r), Judgement(s, r, performer, command, outcome), r)
    ensures Authority.Commit(Config(c), s, r, None).0 == t && Authority.Commit(Config(c), s, r, None).1.Ok?
    ensures Authority.Commit(Config(c), s, r, None).1.value.1 == act && Adds(c, s, t, r, act)
  {
    hide Evaluate, Grounds, WithPayload, GateOpen, Commands, CommandTypes, ActTypes, Authority.Commit, Hosts, Stands;
    hide Config, Meets, Records, SubmissionOf, ActOf, ActHash, AfterPlacing, Judgement, AllAddressed, WellFormed;
    var e := Judgement(s, r, performer, command, outcome);
    RequestStands(c, s, r, performer, command, outcome);
    EvaluationExactly(Config(c), s, r, None, e);
    var reason :| Evaluate(Config(c), s, r, None) == Ok(Because(e, reason));
    var f := Because(e, reason);
    GenesisKnown(c, s);
    OpenWhatever(c.ed, Stocked(s, r), e, r, reason);
    PlacedUnlessOpen(Config(c), s, r, None, f);
    OpenMeets(c, s, r, f);
    FreshActRecords(Config(c), s, r, None);
    t, act := Authority.Commit(Config(c), s, r, None).0, Authority.Commit(Config(c), s, r, None).1.value.1;
    FreshExactly(Config(c), s, r, None, f);
    NewHosts(c, s, r, f);
  }

  lemma OpenMeets(c: Case, s: Ledger, r: ActionRequest, e: Evaluated)
    requires WithPayload(s, r).Some? && GateOpen(c.ed, Stocked(s, r), e, r)
    ensures forall refusal: CommitError | LeftOpen(refusal) ::
              Meets(Config(c).ed, WithPayload(s, r).value, SubmissionOf(e, r), refusal)
  {
    hide Meets, WithPayload, SubmissionOf;
  }

  lemma PlainEvaluation(v: Service, s: Ledger, r: ActionRequest, e: Evaluated)
    requires Prepared(v, s, r, e) && Plainly(r)
    ensures e.decision.cut == HistoryCut(s) && e.command.parents == []
  {
    hide AuthenticityFlaw, RegistryFlaw, PayloadFlaw;
  }

  lemma NewHosts(c: Case, s: Ledger, r: ActionRequest, e: Evaluated)
    requires Hosts(c, s) && Plainly(r) && Evaluate(Config(c), s, r, None) == Ok(e) && WithPayload(s, r).Some?
    ensures var t := AfterPlacing(WithPayload(s, r).value, SubmissionOf(e, r));
            && Hosts(c, t) && SameOn(s.objects, t.objects)
            && (r.payload.Some? ==>
                  r.payloadHash in t.objects
                  && t.objects[r.payloadHash] == Record(Canonical(r.payload.value), "payload"))
  {
    hide Evaluate, Config, AfterPlacing, CommandTypes, ActTypes, Reviewed, SigningValue, CanonicalValue, AllAddressed;
    hide Prepared, Governed, Attributed, WellFormed, WithPayload;
    EvaluationEstablishes(Config(c), s, r, None);
    GenesisKnown(c, s);
    PayloadFits(Config(c), s, r, e);
    PayloadLands(s, r);
    PlainEvaluation(Config(c), s, r, e);
    PresentIsUnplaced(s, SubmissionOf(e, r));
    GrownHosts(c, s, WithPayload(s, r).value, SubmissionOf(e, r));
  }

  // --- the four requests ---

  lemma ProposalPresents(c: Case, s: Ledger, actType: string, chain: seq<Text>)
    requires Stands(c) && Hosts(c, s) && actType in ActTypes(c)
    ensures Presents(c, s, Request(c, actType, chain), c.author, Proposal(c))
  {
    hide RuleFits, WellFormed, AllAddressed, Reviewed, IsLifecycle, ActTypes, SigningValue;
    Base64.SignatureRoundTrip(c.signature);
    assert CommandTypes(c)[0] == c.commandType;
  }

  lemma ReviewPresents(c: Case, s: Ledger)
    requires Stands(c) && Hosts(c, s)
    ensures Presents(c, s, ReviewRequest(c), c.reviewer, Review(c))
  {
    hide RuleFits, WellFormed, AllAddressed, Reviewed, IsLifecycle, SigningValue, Proposal;
    Base64.SignatureRoundTrip(c.reviewSignature);
    assert CommandTypes(c)[1] == "ReviewAuthorization";
    StageNamed(c, 1);
  }

  lemma StageNamed(c: Case, i: nat)
    requires i < 4
    ensures ActTypes(c)[i] in ActTypes(c)
    ensures ActTypes(c)[0] == "ReviewRequested" && ActTypes(c)[1] == "AuthorizationReviewed"
    ensures ActTypes(c)[2] == "AuthorizationResolved" && ActTypes(c)[3] == c.actType
  {
  }

  /** What is common to the four: the cut is the history, and there are no parents. */
  lemma PresentOpen(ed: Verifier, s: Ledger, e: Evaluated, r: ActionRequest)
    requires e.decision.cut == s.acts.Keys && e.command.parents == []
    ensures Meets(ed, s, SubmissionOf(e, r), HistoryAdvanced) && Meets(ed, s, SubmissionOf(e, r), MissingParent)
  {
    hide CommandHash;
  }

  lemma RequestOpen(ed: Verifier, s: Ledger, e: Evaluated, r: ActionRequest)
    requires e.decision.cut == s.acts.Keys && e.command.parents == []
    requires e.actType == "ReviewRequested" && e.decision.outcome == RequireReview
    ensures GateOpen(ed, s, e, r)
  {
    hide CommandHash, Names, Enters;
    PresentOpen(ed, s, e, r);
  }

  lemma ReviewOpen(ed: Verifier, s: Ledger, e: Evaluated, r: ActionRequest, target: Text)
    requires e.decision.cut == s.acts.Keys && e.command.parents == []
    requires e.actType == "AuthorizationReviewed" && e.decision.outcome == Allow
    requires e.command.commandType == "ReviewAuthorization" && Names(s.objects, e.command.payloadHash, target)
    ensures GateOpen(ed, s, e, r)
  {
    hide CommandHash, Names, Enters;
    PresentOpen(ed, s, e, r);
  }

  /** A resolution of a Command that links its request and one review, which names it, and nothing else. */
  lemma ResolutionOpen(ed: Verifier, s: Ledger, e: Evaluated, r: ActionRequest, request: Text, review: Text)
    requires e.decision.cut == s.acts.Keys && e.command.parents == []
    requires e.actType == "AuthorizationResolved" && e.decision.outcome == Allow && e.authChain == [request, review]
    requires request in s.acts && s.acts[request].actType == "ReviewRequested"
    requires s.acts[request].commandHash == CommandHash(e.command)
    requires review in s.acts && s.acts[review].actType == "AuthorizationReviewed"
    requires Names(s.objects, s.acts[review].payloadHash, CommandHash(e.command))
    ensures GateOpen(ed, s, e, r)
  {
    hide CommandHash, Names, Enters;
    PresentOpen(ed, s, e, r);
    assert e.authChain[0] == request && e.authChain[1] == review;
  }

  /** A consequence of a Command that has none, linking its resolution. */
  lemma ConsequenceOpen(ed: Verifier, s: Ledger, e: Evaluated, r: ActionRequest, resolution: Text)
    requires e.decision.cut == s.acts.Keys && e.command.parents == []
    requires !IsLifecycle(e.actType) && e.decision.outcome == Allow && e.authChain == [resolution]
    requires resolution in s.acts && s.acts[resolution].actType == "AuthorizationResolved"
    requires s.acts[resolution].commandHash == CommandHash(e.command)
    requires forall h | h in s.acts && s.acts[h].commandHash == CommandHash(e.command) :: IsLifecycle(s.acts[h].actType)
    ensures GateOpen(ed, s, e, r)
  {
    hide CommandHash, Names, Enters;
    PresentOpen(ed, s, e, r);
    assert e.authChain[0] == resolution;
  }

  /** The service answers a request with this Act, newly placed, and leaves this ledger. */
  ghost predicate Answers(c: Case, s: Ledger, t: Ledger, r: ActionRequest, act: Act) {
    && Authority.Commit(Config(c), s, r, None).0 == t && Authority.Commit(Config(c), s, r, None).1.Ok?
    && Authority.Commit(Config(c), s, r, None).1.value.1 == act
    && Adds(c, s, t, r, act)
  }

  lemma SizeOfHistory(s: Ledger)
    requires WellFormed(s)
    ensures |s.acts.Keys| == |s.order|
  {
    DistinctCardinality(s.order);
  }

  lemma RuleSays(c: Case, s: Ledger)
    requires Stands(c) && WellFormed(s)
    ensures |s.order| == 1 ==>
              c.rule.evaluate(c.author, Proposal(c), Bare(c.author), s.acts.Keys).outcome == RequireReview
    ensures |s.order| >= 3 ==> c.rule.evaluate(c.author, Proposal(c), Bare(c.author), s.acts.Keys).outcome == Allow
    ensures c.rule.evaluate(c.reviewer, Review(c), Bare(c.reviewer), s.acts.Keys).outcome == Allow
  {
    hide Bare, Proposal, Review, WellFormed, IsLifecycle;
    SizeOfHistory(s);
  }

  lemma NoPayload(s: Ledger, r: ActionRequest)
    requires r.payload.None?
    ensures Stocked(s, r) == s
  {
  }

  lemma ReviewIsRequested(c: Case) returns (t: Ledger, act: Act)
    requires Stands(c)
    ensures Answers(c, Reviewed(c), t, Request(c, "ReviewRequested", []), act)
  {
    hide Stands, Hosts, Presents, GateOpen, Bare, Authority.Commit, Adds, Config, FoundedLedger, ActTypes;
    var s, r := Reviewed(c), Request(c, "ReviewRequested", []);
    StartHosts(c);
    GenesisKnown(c, s);
    StageNamed(c, 0);
    ProposalPresents(c, s, "ReviewRequested", []);
    RuleSays(c, s);
    NoPayload(s, r);
    RequestOpen(c.ed, s, Judgement(s, r, c.author, Proposal(c), RequireReview), r);
    t, act := RequestPlaces(c, s, r, c.author, Proposal(c), RequireReview);
  }

  lemma VerdictNames(c: Case, s: Ledger)
    requires Hosts(c, s)
    ensures var s1 := Stocked(s, ReviewRequest(c));
            && Names(s1.objects, ObjectHash("payload", Verdict(c)), CommandHash(Proposal(c))) && s1.acts == s.acts
  {
    hide Vocabulary, Reviewed, WellFormed, CommandHash;
    assert Verdict(c).fields["reviewed_command_hash"] == Str(CommandHash(Proposal(c)));
  }

  lemma ReviewIsGiven(c: Case, s: Ledger) returns (t: Ledger, act: Act)
    requires Stands(c) && Hosts(c, s)
    ensures Answers(c, s, t, ReviewRequest(c), act)
  {
    hide Stands, Hosts, Presents, GateOpen, Bare, Authority.Commit, Adds, Config, Verdict, Stocked, Names;
    var r := ReviewRequest(c);
    GenesisKnown(c, s);
    ReviewPresents(c, s);
    RuleSays(c, s);
    VerdictNames(c, s);
    ReviewOpen(c.ed, Stocked(s, r), Judgement(s, r, c.reviewer, Review(c), Allow), r, CommandHash(Proposal(c)));
    t, act := RequestPlaces(c, s, r, c.reviewer, Review(c), Allow);
  }

  /** Act h requests review of the proposal; Act h reviews it; Act h resolves it. */
  predicate IsRequestAt(c: Case, s: Ledger, h: Text) {
    h in s.acts && s.acts[h].actType == "ReviewRequested" && s.acts[h].commandHash == CommandHash(Proposal(c))
  }

  predicate IsReviewAt(c: Case, s: Ledger, h: Text) {
    && h in s.acts && s.acts[h].actType == "AuthorizationReviewed" && s.acts[h].commandHash == CommandHash(Review(c))
    && Names(s.objects, s.acts[h].payloadHash, CommandHash(Proposal(c)))
  }

  predicate IsResolutionAt(c: Case, s: Ledger, h: Text) {
    h in s.acts && s.acts[h].actType == "AuthorizationResolved" && s.acts[h].commandHash == CommandHash(Proposal(c))
  }

  lemma ReviewIsResolved(c: Case, s: Ledger, request: Text, review: Text) returns (t: Ledger, act: Act)
    requires Stands(c) && Hosts(c, s) && |s.order| >= 3
    requires IsRequestAt(c, s, request) && IsReviewAt(c, s, review)
    ensures Answers(c, s, t, Request(c, "AuthorizationResolved", [request, review]), act)
  {
    hide Stands, Hosts, Presents, GateOpen, Bare, Authority.Commit, Adds, Config, ActTypes, Names, CommandHash;
    var r := Request(c, "AuthorizationResolved", [request, review]);
    GenesisKnown(c, s);
    StageNamed(c, 2);
    ProposalPresents(c, s, "AuthorizationResolved", [request, review]);
    RuleSays(c, s);
    NoPayload(s, r);
    ResolutionOpen(c.ed, s, Judgement(s, r, c.author, Proposal(c), Allow), r, request, review);
    t, act := RequestPlaces(c, s, r, c.author, Proposal(c), Allow);
  }

  lemma ProposalIsCarriedOut(c: Case, s: Ledger, resolution: Text) returns (t: Ledger, act: Act)
    requires Stands(c) && Hosts(c, s) && |s.order| >= 3 && IsResolutionAt(c, s, resolution)
    requires forall h | h in s.acts && s.acts[h].commandHash == CommandHash(Proposal(c)) ::
               IsLifecycle(s.acts[h].actType)
    ensures Answers(c, s, t, Request(c, c.actType, [resolution]), act)
  {
    hide Hosts, Presents, GateOpen, Bare, Authority.Commit, Adds, Config, ActTypes, CommandHash, SigningValue, RuleFits;
    var r := Request(c, c.actType, [resolution]);
    GenesisKnown(c, s);
    StageNamed(c, 3);
    ProposalPresents(c, s, c.actType, [resolution]);
    RuleSays(c, s);
    NoPayload(s, r);
    ConsequenceOpen(c.ed, s, Judgement(s, r, c.author, Proposal(c), Allow), r, resolution);
    t, act := RequestPlaces(c, s, r, c.author, Proposal(c), Allow);
  }

  // --- the whole flow ---

  /** The proposal's Acts are of these types. */
  predicate OwnsOnly(c: Case, s: Ledger, stages: set<string>) {
    forall h | h in s.acts && s.acts[h].commandHash == CommandHash(Proposal(c)) :: s.acts[h].actType in stages
  }

  /** This Act is among them. */
  predicate Owns(c: Case, s: Ledger, h: Text, stages: set<string>) {
    h in s.acts && s.acts[h].commandHash == CommandHash(Proposal(c)) && OwnsOnly(c, s, stages)
  }

  lemma ProposalRecorded(c: Case, actType: string, chain: seq<Text>, act: Act)
    requires Records(act, Request(c, actType, chain))
    ensures act.commandHash == CommandHash(Proposal(c)) && act.actType == actType
  {
  }

  lemma ReviewRecorded(c: Case, act: Act)
    requires Records(act, ReviewRequest(c))
    ensures act.commandHash == CommandHash(Review(c)) && act.actType == "AuthorizationReviewed"
    ensures act.payloadHash == ObjectHash("payload", Verdict(c))
  {
    hide Verdict;
  }

  lemma CommandsDiffer(c: Case)
    requires c.author.hash != c.reviewer.hash
    ensures CommandHash(Review(c)) != CommandHash(Proposal(c))
  {
    hide Verdict;
    if CommandHash(Review(c)) == CommandHash(Proposal(c)) {
      CommandHashInjective(Review(c), Proposal(c));
    }
  }

  lemma VerdictStored(c: Case, s: Ledger, act: Act)
    requires act.hash in s.acts && s.acts[act.hash] == act && Records(act, ReviewRequest(c))
    requires var h := ObjectHash("payload", Verdict(c));
             h in s.objects && s.objects[h] == Record(Canonical(Verdict(c)), "payload")
    ensures IsReviewAt(c, s, act.hash)
  {
    hide Proposal, CommandHash;
    ReviewRecorded(c, act);
    assert Verdict(c).fields["reviewed_command_hash"] == Str(CommandHash(Proposal(c)));
  }

  lemma StartOwnsNothing(c: Case)
    ensures OwnsOnly(c, Reviewed(c), {})
  {
    hide Vocabulary;
  }

  /** The Command is pending review once its review is requested, and while it is only reviewed; pending once
      that is resolved; and committed once it is carried out. */
  lemma StatusAlong(c: Case, s: Ledger, h: Text, stages: set<string>)
    requires WellFormed(s) && Owns(c, s, h, stages)
    ensures s.acts[h].actType == "ReviewRequested" && stages == {"ReviewRequested"} ==>
              StatusIn(s, CommandHash(Proposal(c))) == PendingReview
    ensures s.acts[h].actType == "AuthorizationResolved" && stages == {"ReviewRequested", "AuthorizationResolved"} ==>
              StatusIn(s, CommandHash(Proposal(c))) == Pending
    ensures !IsLifecycle(s.acts[h].actType) ==> StatusIn(s, CommandHash(Proposal(c))) == Committed
  {
    hide Proposal, CommandHash;
    var command := CommandHash(Proposal(c));
    var acts := ActsForCommand(s, command);
    assert h in ToSet(s.order);
    OwnedMembers(s.acts, s.order, command, s.acts[h]);
    forall a | a in acts ensures a.actType in stages {
      OwnedMembers(s.acts, s.order, command, a);
    }
    StatusExactly(acts, PendingReview);
    StatusExactly(acts, Pending);
    StatusExactly(acts, Committed);
  }

  /** After a request about the proposal its Act is one of the proposal's. */
  lemma OwnsNext(c: Case, s: Ledger, t: Ledger, actType: string, chain: seq<Text>, act: Act, stages: set<string>,
                 later: set<string>)
    requires Answers(c, s, t, Request(c, actType, chain), act) && OwnsOnly(c, s, stages) && later == stages + {actType}
    ensures Owns(c, t, act.hash, later) && t.acts[act.hash].actType == actType
    ensures Hosts(c, t) && WellFormed(t) && |t.order| == |s.order| + 1
  {
    hide Hosts, Authority.Commit, Records, Request, Proposal, CommandHash, Config;
    ProposalRecorded(c, actType, chain, act);
    GenesisKnown(c, t);
  }

  /** The review is not one of them. */
  lemma OwnsStill(c: Case, s: Ledger, t: Ledger, act: Act, h: Text, stages: set<string>)
    requires Stands(c) && Answers(c, s, t, ReviewRequest(c), act) && Owns(c, s, h, stages)
    ensures Owns(c, t, h, stages) && t.acts[h] == s.acts[h]
    ensures IsReviewAt(c, t, act.hash) && Hosts(c, t) && WellFormed(t) && |t.order| == |s.order| + 1
  {
    hide Hosts, Authority.Commit, Records, Proposal, Review, Verdict, CommandHash, Config, IsReviewAt;
    ReviewRecorded(c, act);
    CommandsDiffer(c);
    VerdictStored(c, t, act);
    GenesisKnown(c, t);
  }

  /** Requested, reviewed, resolved, carried out. */
  ghost predicate Flows(c: Case, s: seq<Ledger>, acts: seq<Act>) {
    && |s| == 5 && |acts| == 4 && s[0] == Reviewed(c)
    && Answers(c, s[0], s[1], Request(c, "ReviewRequested", []), acts[0])
    && Answers(c, s[1], s[2], ReviewRequest(c), acts[1])
    && Answers(c, s[2], s[3], Request(c, "AuthorizationResolved", [acts[0].hash, acts[1].hash]), acts[2])
    && Answers(c, s[3], s[4], Request(c, c.actType, [acts[2].hash]), acts[3])
  }

  /** For every such case the service takes the Command all the way, and its status follows. */
  lemma ReviewedIsCarriedOut(c: Case) returns (s: seq<Ledger>, acts: seq<Act>)
    requires Stands(c)
    ensures Flows(c, s, acts)
    ensures var command := CommandHash(Proposal(c));
            && StatusIn(s[1], command) == PendingReview && StatusIn(s[2], command) == PendingReview
            && StatusIn(s[3], command) == Pending && StatusIn(s[4], command) == Committed
  {
    hide Hosts, Stands, Answers, Reviewed, CommandHash, Proposal, Request, ReviewRequest, WellFormed, StatusIn;
    hide IsReviewAt, OwnsOnly;
    StartHosts(c);
    StartOwnsNothing(c);
    var s1, a1 := ReviewIsRequested(c);
    OwnsNext(c, Reviewed(c), s1, "ReviewRequested", [], a1, {}, {"ReviewRequested"});
    var s2, a2 := ReviewIsGiven(c, s1);
    OwnsStill(c, s1, s2, a2, a1.hash, {"ReviewRequested"});
    var s3, a3 := ReviewIsResolved(c, s2, a1.hash, a2.hash);
    var chain := [a1.hash, a2.hash];
    var stages := {"ReviewRequested", "AuthorizationResolved"};
    OwnsNext(c, s2, s3, "AuthorizationResolved", chain, a3, {"ReviewRequested"}, stages);
    StagesAreLifecycle(c, s3);
    var s4, a4 := ProposalIsCarriedOut(c, s3, a3.hash);
    OwnsNext(c, s3, s4, c.actType, [a3.hash], a4, stages, stages + {c.actType});
    s, acts := [Reviewed(c), s1, s2, s3, s4], [a1, a2, a3, a4];
    Consequential(c);
    StatusAlong(c, s1, a1.hash, {"ReviewRequested"});
    StatusAlong(c, s2, a1.hash, {"ReviewRequested"});
    StatusAlong(c, s3, a3.hash, stages);
    StatusAlong(c, s4, a4.hash, stages + {c.actType});
  }

  lemma StagesAreLifecycle(c: Case, s: Ledger)
    requires OwnsOnly(c, s, {"ReviewRequested", "AuthorizationResolved"})
    ensures forall h | h in s.acts && s.acts[h].commandHash == CommandHash(Proposal(c)) ::
              IsLifecycle(s.acts[h].actType)
  {
    hide CommandHash, Proposal;
  }

  lemma Consequential(c: Case)
    requires Stands(c)
    ensures !IsLifecycle(c.actType)
  {
    hide RuleFits;
  }

  /** And there are such cases for every Command type and payload. */
  lemma AnyCommandIsReviewed(commandType: string, payload: Value) returns (c: Case, s: seq<Ledger>, acts: seq<Act>)
    ensures Flows(c, s, acts) && c.commandType == commandType && c.payload == payload
  {
    hide Stands, Flows, StatusIn;
    c := SomeCaseStands(commandType, payload);
    s, acts := ReviewedIsCarriedOut(c);
  }
}

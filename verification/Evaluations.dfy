/**
 What an evaluation rests on, and what the Acts it leads to record, said of the request and the ledger
 alone (service/authority.py, service/models.py, service/identity.py).
 */
module Evaluations {
  import opened Canon
  import opened Types
  import opened Ledgers
  import opened Rules
  import opened Requests
  import opened Authority
  import opened ServiceLaws
  import opened Acceptance
  import opened Interleaving
  import Base64

  // --- the cuts ---

  /** The cuts asked for, or the whole history: each holds the parents of its members, the second lies in the
      first. */
  predicate Cuts(s: Ledger, r: ActionRequest, cut: set<Text>, registryCut: set<Text>) {
    && cut == (if r.historyCut.Some? then r.historyCut.value else s.acts.Keys)
    && registryCut == (if r.registryCut.Some? then r.registryCut.value else cut)
    && (forall h | h in registryCut :: h in cut)
    && (forall h | h in cut :: h in s.acts && forall p | p in s.acts[h].parents :: p in cut)
    && (forall h | h in registryCut :: forall p | p in s.acts[h].parents :: p in registryCut)
  }

  lemma CutsExactly(s: Ledger, r: ActionRequest, e: Evaluated)
    ensures CutsRead(read => s, r, e) <==> Cuts(s, r, e.decision.cut, e.decision.registryCut)
  {
  }

  // --- the parties and the Context ---

  /** Who asked and of what kind: the performer where no principal is given and that is allowed, otherwise
      the Identity the principal is bound to, which must be the performer or be known. */
  predicate Asked(s: Ledger, allowSigned: bool, performer: Identity, p: Option<Principal>, requestedBy: Text,
                  kind: string) {
    match p
    case None => allowSigned && requestedBy == performer.hash && kind == performer.kind
    case Some(principal) =>
      && principal.issuer != Plain("") && principal.subject != Plain("")
      && (principal.issuer, principal.subject) in s.bindings
      && requestedBy == s.bindings[(principal.issuer, principal.subject)]
      && if requestedBy == performer.hash then kind == performer.kind
         else requestedBy in s.identities && kind == s.identities[requestedBy].kind
  }

  lemma RequesterExactly(s: Ledger, allowSigned: bool, performer: Identity, p: Option<Principal>, requestedBy: Text,
                         kind: string)
    ensures ResolveRequester(s, allowSigned, performer, p) == Ok((requestedBy, kind))
       <==> Asked(s, allowSigned, performer, p, requestedBy, kind)
  {
  }

  /** A map with the four derived keys set, whatever it held there. */
  function Layered<T>(m: map<string, T>, requestedBy: T, performedBy: T, kind: T, client: T): map<string, T> {
    m["request.requested_by" := requestedBy]["request.performed_by" := performedBy][
      "request.requester_kind" := kind]["request.oauth_client" := client]
  }

  /** The Context holds what the client sent, under the keys it typed, and four facts it could not send. */
  predicate Framed(r: ActionRequest, c: Context, performer: Identity, p: Option<Principal>, requestedBy: Text,
                   kind: string) {
    && (forall key | key in DERIVED_CONTEXT_KEYS :: key !in r.contextValues)
    && c.values == Layered(r.contextValues, Str(requestedBy), Str(performer.hash), Str(Plain(kind)),
                           Str(if p.Some? then p.value.clientId else performer.hash))
    && c.types == Layered(r.contextTypes, Plain("request.requested_by"), Plain("request.performed_by"),
                          Plain("request.requester_kind"), Plain("request.oauth_client"))
    && c.values.Keys == c.types.Keys
  }

  lemma LayersOver<T>(m: map<string, T>, n: map<string, T>)
    requires n.Keys == DERIVED_CONTEXT_KEYS
    ensures m + n == Layered(m, n[REQUESTED_BY], n[PERFORMED_BY], n[REQUESTER_KIND], n[OAUTH_CLIENT])
  {
  }

  lemma NoneIn<T>(keys: set<string>, m: map<string, T>)
    ensures keys * m.Keys == {} <==> forall key | key in keys :: key !in m
  {
    if key :| key in keys && key in m {
      assert key in keys * m.Keys;
    }
  }

  lemma ContextExactly(r: ActionRequest, c: Context, performer: Identity, p: Option<Principal>, requestedBy: Text,
                       kind: string)
    ensures ContextOf(r, DerivedKeys(performer, requestedBy, kind, p)) == Ok(c)
       <==> Framed(r, c, performer, p, requestedBy, kind)
  {
    hide Layered, DerivedKeys;
    var d := DerivedKeys(performer, requestedBy, kind, p);
    DerivedFacts(performer, requestedBy, kind, p);
    LayersOver(r.contextValues, map key | key in d :: Str(d[key]));
    LayersOver(r.contextTypes, map key | key in d :: Plain(key));
    NoneIn(DERIVED_CONTEXT_KEYS, r.contextValues);
  }

  /** The performer is the known Identity that signed; the Context names performer and requester. */
  ghost predicate Parties(v: Service, s: Ledger, r: ActionRequest, p: Option<Principal>, e: Evaluated) {
    && e.command.identityHash in s.identities && e.identity == s.identities[e.command.identityHash]
    && v.ed(e.identity.publicKey, e.command.signature, SigningValue(e.command))
    && exists requestedBy, kind ::
         Asked(s, v.allowSigned, e.identity, p, requestedBy, kind)
         && Framed(r, e.context, e.identity, p, requestedBy, kind)
  }

  lemma PartiesExactly(v: Service, s: Ledger, r: ActionRequest, p: Option<Principal>, e: Evaluated)
    ensures PartiesRead(v, read => s, r, p, e) <==> Parties(v, s, r, p, e)
  {
    hide Asked, Framed, DerivedKeys, ContextOf, ResolveRequester, SigningValue;
    assert s.(identities := s.identities) == s;
    if PartiesRead(v, read => s, r, p, e) {
      var (requestedBy, kind) := ResolveRequester(s, v.allowSigned, e.identity, p).value;
      RequesterExactly(s, v.allowSigned, e.identity, p, requestedBy, kind);
      ContextExactly(r, e.context, e.identity, p, requestedBy, kind);
    }
    if Parties(v, s, r, p, e) {
      var requestedBy, kind :| Asked(s, v.allowSigned, e.identity, p, requestedBy, kind)
                               && Framed(r, e.context, e.identity, p, requestedBy, kind);
      RequesterExactly(s, v.allowSigned, e.identity, p, requestedBy, kind);
      ContextExactly(r, e.context, e.identity, p, requestedBy, kind);
    }
  }

  // --- payload and vocabulary ---

  /** The payload is what its hash says, or stored; and everything named is vocabulary at the cut. */
  predicate Speakable(s: Ledger, r: ActionRequest, context: Context, cut: set<Text>) {
    && (if r.payload.Some? then r.payloadHash == ObjectHash("payload", r.payload.value) else r.payloadHash in s.objects)
    && (exists e | e in s.registry :: Enters(e, "command_type", Plain(r.commandType), cut))
    && (exists e | e in s.registry :: Enters(e, "act_type", Plain(r.actType), cut))
    && forall key | key in context.values :: exists e | e in s.registry :: Enters(e, "context_type", Plain(key), cut)
  }

  lemma TypesExactly(s: Ledger, r: ActionRequest, e: Evaluated)
    ensures TypesRead(read => s, r, e) <==> Speakable(s, r, e.context, e.decision.registryCut)
  {
    hide Registered, Enters;
    var cut := e.decision.registryCut;
    EntersExactly(s, "command_type", Plain(r.commandType), cut);
    EntersExactly(s, "act_type", Plain(r.actType), cut);
    forall key | key in e.context.values
      ensures Registered(s, "context_type", Plain(key), cut)
         <==> exists e | e in s.registry :: Enters(e, "context_type", Plain(key), cut)
    {
      EntersExactly(s, "context_type", Plain(key), cut);
    }
  }

  // --- the rules ---

  /** Entry i of the registry is what a rule's name stands for at a cut: no entry of it born there has a
      higher version, nor, of the same version, a later place. */
  predicate IsCurrent(registry: seq<Entry>, name: Text, cut: set<Text>, i: nat) {
    && i < |registry| && IsRuleEntry(registry[i], name, cut)
    && forall j | 0 <= j < |registry| && IsRuleEntry(registry[j], name, cut) ::
         registry[j].version < registry[i].version || (registry[j].version == registry[i].version && j <= i)
  }

  lemma OneCurrent(registry: seq<Entry>, name: Text, cut: set<Text>, i: nat, j: nat)
    requires IsCurrent(registry, name, cut, i) && IsCurrent(registry, name, cut, j)
    ensures i == j
  {
  }

  lemma {:induction false} CurrentFound(registry: seq<Entry>, name: Text, cut: set<Text>) returns (i: nat)
    ensures RuleEntry(registry, name, cut).None? ==> forall e | e in registry :: !IsRuleEntry(e, name, cut)
    ensures RuleEntry(registry, name, cut).Some? ==>
              IsCurrent(registry, name, cut, i) && RuleEntry(registry, name, cut).value == registry[i]
  {
    if registry == [] {
      i := 0;
    } else {
      var n := |registry| - 1;
      var k := CurrentFound(registry[..n], name, cut);
      assert registry == registry[..n] + [registry[n]];
      i := if RuleEntry(registry, name, cut) == Some(registry[n]) && IsRuleEntry(registry[n], name, cut)
              && (RuleEntry(registry[..n], name, cut).None? || registry[k].version <= registry[n].version)
           then n else k;
    }
  }

  /** The service has a rule to run for this name: one configured for the current entry, or the root's. */
  predicate Runs(v: Service, registry: seq<Entry>, name: Text, cut: set<Text>, i: nat) {
    && IsCurrent(registry, name, cut, i)
    && if name in v.staticRules then v.staticRules[name].hash == registry[i].hash
       else name == Plain("genesis.root_authority") && v.root.Some?
  }

  /** What the rule of a name judges: a configured rule as it will, the root's for the root and nobody else. */
  predicate Judges(v: Service, e: Evaluated, name: Text, outcome: DecisionKind) {
    if name in v.staticRules
    then v.staticRules[name].evaluate(e.identity, e.command, e.context, e.decision.cut).outcome == outcome
    else outcome == if v.root == Some(e.identity.hash) then Allow else Deny
  }

  lemma ResolvesOne(v: Service, registry: seq<Entry>, name: Text, cut: set<Text>) returns (i: nat)
    ensures ResolveOne(v, registry, name, cut).Ok? ==>
              && Runs(v, registry, name, cut, i)
              && ResolveOne(v, registry, name, cut).value.hash == registry[i].hash
    ensures ResolveOne(v, registry, name, cut).Err? ==> forall k :: !Runs(v, registry, name, cut, k)
  {
    hide RuleEntry, IsCurrent;
    i := CurrentFound(registry, name, cut);
    forall k | IsCurrent(registry, name, cut, k) ensures k == i && RuleEntry(registry, name, cut).Some? {
      CurrentIsEntry(registry, name, cut, k);
      OneCurrent(registry, name, cut, i, k);
    }
  }

  lemma CurrentIsEntry(registry: seq<Entry>, name: Text, cut: set<Text>, k: nat)
    requires IsCurrent(registry, name, cut, k)
    ensures RuleEntry(registry, name, cut).Some?
  {
    hide RuleEntry;
    var _ := CurrentFound(registry, name, cut);
    assert registry[k] in registry;
  }

  /** What a resolved rule judges, and which keys it declares. */
  lemma ResolvedJudges(v: Service, registry: seq<Entry>, name: Text, cut: set<Text>, e: Evaluated)
    requires ResolveOne(v, registry, name, cut).Ok?
    ensures var rule := ResolveOne(v, registry, name, cut).value;
            && (forall outcome: DecisionKind ::
                  Judges(v, e, name, outcome)
                  <==> rule.evaluate(e.identity, e.command, e.context, e.decision.cut).outcome == outcome)
            && rule.contextKeys == if name in v.staticRules then v.staticRules[name].contextKeys else {}
  {
    hide RuleEntry;
  }

  lemma {:induction false} ResolvesAll(v: Service, registry: seq<Entry>, names: seq<Text>, cut: set<Text>)
    ensures Resolve(v, registry, names, cut).Ok?
       <==> forall name | name in names :: ResolveOne(v, registry, name, cut).Ok?
  {
    hide ResolveOne;
    if names != [] {
      var init, last := names[..|names| - 1], names[|names| - 1];
      ResolvesAll(v, registry, init, cut);
      assert names == init + [last];
    }
  }

  /** The outcome is some configured rule's; a denial is not outvoted, and a call for review only by one. */
  predicate Judged(v: Service, e: Evaluated) {
    && (exists name | name in v.ruleNames :: Judges(v, e, name, e.decision.outcome))
    && (forall name | name in v.ruleNames && Judges(v, e, name, Deny) :: e.decision.outcome == Deny)
    && (forall name | name in v.ruleNames && Judges(v, e, name, RequireReview) :: e.decision.outcome != Allow)
  }

  /** The hash of the current entry of a name that has a rule to run. */
  ghost predicate RunsAs(v: Service, registry: seq<Entry>, name: Text, cut: set<Text>, hash: Text) {
    exists i: nat :: Runs(v, registry, name, cut, i) && registry[i].hash == hash
  }

  /** The k-th hash is that of the current entry of the k-th configured name. */
  ghost predicate Resolves(v: Service, registry: seq<Entry>, e: Evaluated) {
    && |e.decision.ruleHashes| == |v.ruleNames|
    && forall k | 0 <= k < |v.ruleNames| ::
         RunsAs(v, registry, v.ruleNames[k], e.decision.registryCut, e.decision.ruleHashes[k])
  }

  /** A decision of the Command's own Identity under every configured rule, the keys they declare at hand. */
  ghost predicate Decided(v: Service, registry: seq<Entry>, e: Evaluated) {
    && e.identity.hash == e.command.identityHash
    && v.ruleNames != [] && Resolves(v, registry, e)
    && (forall name | name in v.ruleNames && name in v.staticRules ::
          v.staticRules[name].contextKeys <= e.context.values.Keys)
    && Judged(v, e)
  }

  lemma RulesJudge(v: Service, registry: seq<Entry>, e: Evaluated, rules: seq<Rule>, k: nat)
    requires Resolve(v, registry, v.ruleNames, e.decision.registryCut) == Ok(rules) && k < |v.ruleNames|
    ensures |rules| == |v.ruleNames|
    ensures forall outcome: DecisionKind ::
              Judges(v, e, v.ruleNames[k], outcome)
              <==> rules[k].evaluate(e.identity, e.command, e.context, e.decision.cut).outcome == outcome
    ensures var name := v.ruleNames[k];
            rules[k].contextKeys == if name in v.staticRules then v.staticRules[name].contextKeys else {}
    ensures RunsAs(v, registry, v.ruleNames[k], e.decision.registryCut, rules[k].hash)
  {
    hide Judges, ResolveOne, Runs;
    var cut := e.decision.registryCut;
    ResolvePointwise(v, registry, v.ruleNames, cut);
    ResolvedJudges(v, registry, v.ruleNames[k], cut, e);
    var i := ResolvesOne(v, registry, v.ruleNames[k], cut);
  }

  /** Rule k of a resolved list judges as its name does. */
  predicate JudgesAlike(v: Service, e: Evaluated, rules: seq<Rule>) {
    |rules| == |v.ruleNames|
    && forall k, outcome: DecisionKind | 0 <= k < |rules| ::
         Judges(v, e, v.ruleNames[k], outcome)
         <==> rules[k].evaluate(e.identity, e.command, e.context, e.decision.cut).outcome == outcome
  }

  lemma SevereIsJudged(v: Service, e: Evaluated, rules: seq<Rule>)
    requires JudgesAlike(v, e, rules)
    ensures IsMostSevere(e.decision.outcome, e.identity, e.command, e.context, e.decision.cut, rules) <==> Judged(v, e)
  {
    hide Judges;
    var names := v.ruleNames;
    if IsMostSevere(e.decision.outcome, e.identity, e.command, e.context, e.decision.cut, rules) {
      var i :| 0 <= i < |rules|
               && rules[i].evaluate(e.identity, e.command, e.context, e.decision.cut).outcome == e.decision.outcome;
      assert Judges(v, e, names[i], e.decision.outcome) && names[i] in names;
      forall name, outcome: DecisionKind | name in names && Judges(v, e, name, outcome)
        ensures Severity(outcome) <= Severity(e.decision.outcome)
      {
        var k :| 0 <= k < |names| && names[k] == name;
      }
    }
    if Judged(v, e) {
      var name :| name in names && Judges(v, e, name, e.decision.outcome);
      var i :| 0 <= i < |names| && names[i] == name;
      assert rules[i].evaluate(e.identity, e.command, e.context, e.decision.cut).outcome == e.decision.outcome;
      forall k | 0 <= k < |rules|
        ensures Severity(rules[k].evaluate(e.identity, e.command, e.context, e.decision.cut).outcome)
             <= Severity(e.decision.outcome)
      {
        var outcome := rules[k].evaluate(e.identity, e.command, e.context, e.decision.cut).outcome;
        assert Judges(v, e, names[k], outcome) && names[k] in names;
      }
    }
  }

  lemma RulesAlike(v: Service, registry: seq<Entry>, e: Evaluated, rules: seq<Rule>)
    requires Resolve(v, registry, v.ruleNames, e.decision.registryCut) == Ok(rules)
    ensures JudgesAlike(v, e, rules)
  {
    hide Judges, Runs, Resolve;
    ResolvePointwise(v, registry, v.ruleNames, e.decision.registryCut);
    forall k, outcome: DecisionKind | 0 <= k < |rules|
      ensures Judges(v, e, v.ruleNames[k], outcome)
         <==> rules[k].evaluate(e.identity, e.command, e.context, e.decision.cut).outcome == outcome
    {
      RulesJudge(v, registry, e, rules, k);
    }
  }

  lemma KeysAtHand(v: Service, registry: seq<Entry>, e: Evaluated, rules: seq<Rule>)
    requires Resolve(v, registry, v.ruleNames, e.decision.registryCut) == Ok(rules)
    ensures (forall rule | rule in rules :: rule.contextKeys <= e.context.values.Keys)
       <==> forall name | name in v.ruleNames && name in v.staticRules ::
              v.staticRules[name].contextKeys <= e.context.values.Keys
  {
    hide Judges, Runs, Resolve;
    var names := v.ruleNames;
    ResolvePointwise(v, registry, names, e.decision.registryCut);
    forall k | 0 <= k < |rules|
      ensures rules[k].contextKeys == if names[k] in v.staticRules then v.staticRules[names[k]].contextKeys else {}
    {
      RulesJudge(v, registry, e, rules, k);
    }
    if forall rule | rule in rules :: rule.contextKeys <= e.context.values.Keys {
      forall name | name in names && name in v.staticRules
        ensures v.staticRules[name].contextKeys <= e.context.values.Keys
      {
        var k :| 0 <= k < |names| && names[k] == name;
        assert rules[k] in rules;
      }
    }
  }

  lemma HashesResolve(v: Service, registry: seq<Entry>, e: Evaluated, rules: seq<Rule>)
    requires Resolve(v, registry, v.ruleNames, e.decision.registryCut) == Ok(rules)
    ensures Resolves(v, registry, e) <==> e.decision.ruleHashes == RuleHashes(rules)
  {
    hide Resolve, Judges, IsRuleEntry;
    var names, hashes, cut := v.ruleNames, e.decision.ruleHashes, e.decision.registryCut;
    ResolvePointwise(v, registry, names, cut);
    forall k | 0 <= k < |names| ensures RunsAs(v, registry, names[k], cut, rules[k].hash) {
      RulesJudge(v, registry, e, rules, k);
    }
    if Resolves(v, registry, e) {
      forall k | 0 <= k < |names| ensures hashes[k] == rules[k].hash {
        var i: nat :| Runs(v, registry, names[k], cut, i) && registry[i].hash == hashes[k];
        var j: nat :| Runs(v, registry, names[k], cut, j) && registry[j].hash == rules[k].hash;
        OneCurrent(registry, names[k], cut, i, j);
      }
      assert hashes == RuleHashes(rules);
    }
  }

  lemma ResolvesIfRun(v: Service, registry: seq<Entry>, e: Evaluated)
    requires Resolves(v, registry, e)
    ensures Resolve(v, registry, v.ruleNames, e.decision.registryCut).Ok?
  {
    hide Resolve, ResolveOne, Runs;
    var names, cut := v.ruleNames, e.decision.registryCut;
    ResolvesAll(v, registry, names, cut);
    forall name | name in names ensures ResolveOne(v, registry, name, cut).Ok? {
      var k :| 0 <= k < |names| && names[k] == name;
      var _ := ResolvesOne(v, registry, names[k], cut);
    }
  }

  lemma CurrentRegistered(s: Ledger, v: Service, e: Evaluated, rules: seq<Rule>, k: nat)
    requires Resolve(v, s.registry, v.ruleNames, e.decision.registryCut) == Ok(rules) && k < |v.ruleNames|
    ensures |rules| == |v.ruleNames| && Registered(s, "rule", rules[k].hash, e.decision.registryCut)
  {
    hide Resolve, Judges;
    RulesJudge(v, s.registry, e, rules, k);
  }

  /** The rules read from one ledger decide as they do exactly if the decision rests on every configured rule
      in its current entry; the reasons given are beside the point. */
  lemma RulesExactly(v: Service, s: Ledger, e: Evaluated)
    ensures RulesRead(v, read => s, e) ==> Decided(v, s.registry, e)
    ensures Decided(v, s.registry, e) ==>
              exists reason :: RulesRead(v, read => s, e.(decision := e.decision.(reason := reason)))
  {
    hide Resolve, Resolves, Judged, Authorized, RuleHashes, Registered;
    var registry, cut := s.registry, e.decision.registryCut;
    if Decided(v, registry, e) {
      ResolvesIfRun(v, registry, e);
    }
    if Resolve(v, registry, v.ruleNames, cut).Ok? {
      var rules := Resolve(v, registry, v.ruleNames, cut).value;
      ResolvePointwise(v, registry, v.ruleNames, cut);
      HashesResolve(v, registry, e, rules);
      KeysAtHand(v, registry, e, rules);
      RulesAlike(v, registry, e, rules);
      SevereIsJudged(v, e, rules);
      DecisionIsMostSevere(e.identity, e.command, e.context, e.decision.cut, cut, rules);
      if Decided(v, registry, e) {
        DecisionStands(v, s, e, rules);
      }
    }
  }

  lemma DecisionStands(v: Service, s: Ledger, e: Evaluated, rules: seq<Rule>)
    requires Resolve(v, s.registry, v.ruleNames, e.decision.registryCut) == Ok(rules) && Decided(v, s.registry, e)
    requires IsMostSevere(e.decision.outcome, e.identity, e.command, e.context, e.decision.cut, rules)
    requires e.decision.ruleHashes == RuleHashes(rules)
    requires forall rule | rule in rules :: rule.contextKeys <= e.context.values.Keys
    ensures exists reason :: RulesRead(v, read => s, e.(decision := e.decision.(reason := reason)))
  {
    hide Resolve, Resolves, Judged, Authorized, RuleHashes, Registered;
    var cut := e.decision.registryCut;
    ResolvePointwise(v, s.registry, v.ruleNames, cut);
    DecisionIsMostSevere(e.identity, e.command, e.context, e.decision.cut, cut, rules);
    forall k | 0 <= k < |rules| ensures Registered(s, "rule", rules[k].hash, cut) {
      CurrentRegistered(s, v, e, rules, k);
    }
    var d := Authorized(e.identity, e.command, e.context, e.decision.cut, cut, rules).value;
    OneMostSevere(d.outcome, e.decision.outcome, e.identity, e.command, e.context, e.decision.cut, rules);
    assert e.decision.(reason := d.reason) == d;
    assert RulesRead(v, read => s, e.(decision := e.decision.(reason := d.reason)));
  }

  lemma OneMostSevere(x: DecisionKind, y: DecisionKind, identity: Identity, command: Command, context: Context,
                      cut: set<Text>, rules: seq<Rule>)
    requires IsMostSevere(x, identity, command, context, cut, rules)
    requires IsMostSevere(y, identity, command, context, cut, rules)
    ensures x == y
  {
  }

  // --- the whole evaluation ---

  /** Everything an evaluation of a request rests on. */
  ghost predicate Grounds(v: Service, s: Ledger, r: ActionRequest, p: Option<Principal>, e: Evaluated) {
    && Commands(r, e.command) && e.actType == r.actType && e.authChain == r.authChain && e.payload == r.payload
    && Cuts(s, r, e.decision.cut, e.decision.registryCut)
    && Parties(v, s, r, p, e)
    && Speakable(s, r, e.context, e.decision.registryCut)
    && Decided(v, s.registry, e)
  }

  function Because(e: Evaluated, reason: string): Evaluated {
    e.(decision := e.decision.(reason := reason))
  }

  /** A request evaluates exactly where there are such grounds, and, but for the reasons given, to the
      evaluation they determine. */
  lemma EvaluationExactly(v: Service, s: Ledger, r: ActionRequest, p: Option<Principal>, e: Evaluated)
    ensures Grounds(v, s, r, p, e) <==> exists reason :: Evaluate(v, s, r, p) == Ok(Because(e, reason))
  {
    hide Evaluate, Grounds, RulesRead, Decided, CutsRead, Cuts, PartiesRead, Parties, TypesRead, Speakable, CommandOf;
    hide Commands;
    if Grounds(v, s, r, p, e) {
      GroundsEvaluate(v, s, r, p, e);
    }
    if reason :| Evaluate(v, s, r, p) == Ok(Because(e, reason)) {
      StillReadsEvaluate(v, s, r, p, Because(e, reason));
      EvaluationGrounds(v, s, r, p, Because(e, reason));
      GroundsWhatever(v, s, r, p, Because(e, reason), e);
    }
  }

  lemma EvaluationGrounds(v: Service, s: Ledger, r: ActionRequest, p: Option<Principal>, e: Evaluated)
    requires EvaluatedAcross(v, read => s, r, p, e)
    ensures Grounds(v, s, r, p, e)
  {
    hide RulesRead, Decided, CutsRead, Cuts, PartiesRead, Parties, TypesRead, Speakable, CommandOf, Commands;
    CommandExactly(r, e.command);
    CutsExactly(s, r, e);
    PartiesExactly(v, s, r, p, e);
    TypesExactly(s, r, e);
    RulesExactly(v, s, e);
  }

  lemma GroundsEvaluate(v: Service, s: Ledger, r: ActionRequest, p: Option<Principal>, e: Evaluated)
    requires Grounds(v, s, r, p, e)
    ensures exists reason :: Evaluate(v, s, r, p) == Ok(Because(e, reason))
  {
    hide Evaluate, RulesRead, Decided, CutsRead, Cuts, PartiesRead, Parties, TypesRead, Speakable, CommandOf, Commands;
    RulesExactly(v, s, e);
    var reason :| RulesRead(v, read => s, e.(decision := e.decision.(reason := reason)));
    var f := Because(e, reason);
    PartsWhatever(v, s, r, p, e, f);
    CommandExactly(r, f.command);
    CutsExactly(s, r, f);
    PartiesExactly(v, s, r, p, f);
    TypesExactly(s, r, f);
    StillReadsEvaluate(v, s, r, p, f);
  }

  lemma PartsWhatever(v: Service, s: Ledger, r: ActionRequest, p: Option<Principal>, e: Evaluated, f: Evaluated)
    requires f == Because(e, f.decision.reason)
    ensures Parties(v, s, r, p, e) ==> Parties(v, s, r, p, f)
  {
  }

  lemma GroundsWhatever(v: Service, s: Ledger, r: ActionRequest, p: Option<Principal>, e: Evaluated, f: Evaluated)
    requires Grounds(v, s, r, p, e) && e == Because(f, e.decision.reason)
    ensures Grounds(v, s, r, p, f)
  {
    hide Runs, Framed, Asked;
    PartsWhatever(v, s, r, p, e, f);
    assert forall name, outcome: DecisionKind :: Judges(v, e, name, outcome) <==> Judges(v, f, name, outcome);
  }

  // --- refusals ---

  /** The cuts a request asks for, or the whole history. */
  function AskedCut(s: Ledger, r: ActionRequest): set<Text> {
    if r.historyCut.Some? then r.historyCut.value else s.acts.Keys
  }

  function AskedRegistryCut(s: Ledger, r: ActionRequest): set<Text> {
    if r.registryCut.Some? then r.registryCut.value else AskedCut(s, r)
  }

  lemma CutsHold(s: Ledger, r: ActionRequest)
    ensures Cuts(s, r, AskedCut(s, r), AskedRegistryCut(s, r))
       <==> IsClosedCut(s, HistoryCutOf(s, r)) && IsClosedCut(s, RegistryCutOf(s, r))
            && RegistryCutOf(s, r) <= HistoryCutOf(s, r)
  {
  }

  /** A request is heard at all if it is well formed, its cuts hold, its performer is known and has signed;
      it is refused for the first of these that is lacking. */
  lemma HearingAnswers(v: Service, s: Ledger, r: ActionRequest, p: Option<Principal>, c: Command)
    ensures (forall d :: !Commands(r, d)) ==> Evaluate(v, s, r, p) == Err(Validation)
    ensures Commands(r, c) && !Cuts(s, r, AskedCut(s, r), AskedRegistryCut(s, r)) ==>
              Evaluate(v, s, r, p) == Err(Validation)
    ensures Commands(r, c) && Cuts(s, r, AskedCut(s, r), AskedRegistryCut(s, r)) && r.identityHash !in s.identities ==>
              Evaluate(v, s, r, p) == Err(NotFound)
    ensures Commands(r, c) && Cuts(s, r, AskedCut(s, r), AskedRegistryCut(s, r)) && r.identityHash in s.identities
            && !v.ed(s.identities[r.identityHash].publicKey, c.signature, SigningValue(c)) ==>
              Evaluate(v, s, r, p) == Err(Unauthorized)
  {
    hide Judge, Commands, Cuts, IsClosedCut, SigningValue, CommandOf, ResolveRequester, ContextOf;
    CutsHold(s, r);
    CommandExactly(r, c);
    if CommandOf(r).Ok? {
      CommandExactly(r, CommandOf(r).value);
      NamedPerformer(r, CommandOf(r).value);
    } else {
      MalformedOnly(r);
    }
  }

  lemma NamedPerformer(r: ActionRequest, c: Command)
    requires Commands(r, c)
    ensures c.identityHash == r.identityHash
  {
    hide IsHash, Base64.DecodeSignature;
  }

  lemma MalformedOnly(r: ActionRequest)
    requires CommandOf(r).Err?
    ensures CommandOf(r) == Err(Validation)
  {
    hide IsHash, Base64.DecodeSignature;
  }

  /** Heard, it is refused if nobody can be said to ask; if it supplies a derived fact; if its Context is not
      typed; and otherwise judged in the one Context it has. */
  lemma HeardIsJudged(v: Service, s: Ledger, r: ActionRequest, p: Option<Principal>, c: Command, requestedBy: Text,
                      kind: string, context: Context)
    requires Commands(r, c) && Cuts(s, r, AskedCut(s, r), AskedRegistryCut(s, r)) && r.identityHash in s.identities
    requires v.ed(s.identities[r.identityHash].publicKey, c.signature, SigningValue(c))
    ensures var performer, evaluation := s.identities[r.identityHash], Evaluate(v, s, r, p);
            && ((forall asker, k :: !Asked(s, v.allowSigned, performer, p, asker, k)) ==>
                  evaluation == Err(Unauthorized))
            && (Asked(s, v.allowSigned, performer, p, requestedBy, kind) ==>
                  && ((exists key :: key in DERIVED_CONTEXT_KEYS && key in r.contextValues) ==>
                        evaluation == Err(Validation))
                  && (((forall key | key in DERIVED_CONTEXT_KEYS :: key !in r.contextValues)
                       && forall d :: !Framed(r, d, performer, p, requestedBy, kind)) ==>
                        evaluation == Err(ContextKeysDiffer))
                  && (Framed(r, context, performer, p, requestedBy, kind) ==>
                        evaluation == Judge(v, s, r, performer, c, context, AskedCut(s, r), AskedRegistryCut(s, r))))
  {
    hide Judge, Commands, Cuts, Asked, Framed, IsClosedCut, SigningValue, CommandOf, DerivedKeys, ResolveRequester;
    hide ContextOf;
    var performer := s.identities[r.identityHash];
    CutsHold(s, r);
    CommandExactly(r, c);
    NamedPerformer(r, c);
    RequesterExactly(s, v.allowSigned, performer, p, requestedBy, kind);
    RequesterRefused(s, v.allowSigned, performer, p);
    ContextExactly(r, context, performer, p, requestedBy, kind);
    ContextRefused(r, performer, p, requestedBy, kind);
  }

  lemma RequesterRefused(s: Ledger, allowSigned: bool, performer: Identity, p: Option<Principal>)
    ensures (forall asker, kind :: !Asked(s, allowSigned, performer, p, asker, kind)) ==>
              ResolveRequester(s, allowSigned, performer, p) == Err(Unauthorized)
  {
    hide Asked;
    if ResolveRequester(s, allowSigned, performer, p).Ok? {
      var (asker, kind) := ResolveRequester(s, allowSigned, performer, p).value;
      RequesterExactly(s, allowSigned, performer, p, asker, kind);
    }
  }

  lemma ContextRefused(r: ActionRequest, performer: Identity, p: Option<Principal>, requestedBy: Text, kind: string)
    ensures var c := ContextOf(r, DerivedKeys(performer, requestedBy, kind, p));
            && ((exists key :: key in DERIVED_CONTEXT_KEYS && key in r.contextValues) ==> c == Err(Validation))
            && (((forall key | key in DERIVED_CONTEXT_KEYS :: key !in r.contextValues)
                 && forall d :: !Framed(r, d, performer, p, requestedBy, kind)) ==> c == Err(ContextKeysDiffer))
  {
    hide Framed, DerivedKeys;
    NoneIn(DERIVED_CONTEXT_KEYS, r.contextValues);
    var c := ContextOf(r, DerivedKeys(performer, requestedBy, kind, p));
    if c.Ok? {
      ContextExactly(r, c.value, performer, p, requestedBy, kind);
    }
  }

  /** A name the service has no rule to run for, at a cut. */
  ghost predicate Idle(v: Service, registry: seq<Entry>, name: Text, cut: set<Text>) {
    forall i: nat :: !Runs(v, registry, name, cut, i)
  }

  /** That is a mistake of the request, except that the root's rule is refused where no root is configured. */
  function IdleError(v: Service, registry: seq<Entry>, name: Text, cut: set<Text>): ServiceError {
    if name !in v.staticRules && name == Plain("genesis.root_authority")
       && exists e | e in registry :: e.kind == "rule" && e.name == name && e.bornAt in cut
    then Unauthorized else Validation
  }

  lemma IdleAnswers(v: Service, registry: seq<Entry>, name: Text, cut: set<Text>)
    requires Idle(v, registry, name, cut)
    ensures ResolveOne(v, registry, name, cut).Err?
    ensures ResolveOne(v, registry, name, cut).error == IdleError(v, registry, name, cut)
  {
    hide RuleEntry, IsCurrent;
    RuleEntryIsLatest(registry, name, cut);
    var i := ResolvesOne(v, registry, name, cut);
    var j := CurrentFound(registry, name, cut);
    assert !Runs(v, registry, name, cut, i) && !Runs(v, registry, name, cut, j);
  }

  lemma {:induction false} FirstIdleAnswers(v: Service, registry: seq<Entry>, names: seq<Text>, cut: set<Text>, k: nat)
    requires k < |names| && Idle(v, registry, names[k], cut)
    requires forall j | 0 <= j < k :: !Idle(v, registry, names[j], cut)
    ensures Resolve(v, registry, names, cut).Err?
    ensures Resolve(v, registry, names, cut).error == IdleError(v, registry, names[k], cut)
  {
    hide Idle, ResolveOne, IdleError;
    var init := names[..|names| - 1];
    if k < |init| {
      FirstIdleAnswers(v, registry, init, cut, k);
    } else {
      ResolvesAll(v, registry, init, cut);
      IdleAnswers(v, registry, names[k], cut);
      forall name | name in init ensures ResolveOne(v, registry, name, cut).Ok? {
        var j :| 0 <= j < |init| && init[j] == name;
        assert !Idle(v, registry, names[j], cut);
        BusyResolves(v, registry, name, cut);
      }
    }
  }

  lemma BusyResolves(v: Service, registry: seq<Entry>, name: Text, cut: set<Text>)
    requires !Idle(v, registry, name, cut)
    ensures ResolveOne(v, registry, name, cut).Ok?
  {
    hide ResolveOne, Runs;
    var _ := ResolvesOne(v, registry, name, cut);
  }

  /** Judged, a request is refused for its payload, then for its vocabulary, then for having no rules, then for
      the first rule there is nothing to run for. */
  lemma JudgingAnswers(v: Service, s: Ledger, r: ActionRequest, identity: Identity, c: Command, context: Context,
                       cut: set<Text>, registryCut: set<Text>, k: nat)
    ensures var judged := Judge(v, s, r, identity, c, context, cut, registryCut);
            if r.payload.Some? && r.payloadHash != ObjectHash("payload", r.payload.value) then judged == Err(Validation)
            else if r.payload.None? && r.payloadHash !in s.objects then judged == Err(NotFound)
            else if !Speakable(s, r, context, registryCut) then judged == Err(Validation)
            else if v.ruleNames == [] then judged == Err(Unauthorized)
            else
              k < |v.ruleNames| && Idle(v, s.registry, v.ruleNames[k], registryCut)
              && (forall j | 0 <= j < k :: !Idle(v, s.registry, v.ruleNames[j], registryCut)) ==>
                judged == Err(IdleError(v, s.registry, v.ruleNames[k], registryCut))
  {
    hide Speakable, Idle, IdleError, Authorized, Registered, ResolveOne;
    SpeakableExactly(s, r, context, registryCut);
    if k < |v.ruleNames| && Idle(v, s.registry, v.ruleNames[k], registryCut)
       && forall j | 0 <= j < k :: !Idle(v, s.registry, v.ruleNames[j], registryCut)
    {
      FirstIdleAnswers(v, s.registry, v.ruleNames, registryCut, k);
    }
  }

  lemma SpeakableExactly(s: Ledger, r: ActionRequest, context: Context, cut: set<Text>)
    ensures Speakable(s, r, context, cut) <==> PayloadFlaw(s, r).None? && RegistryFlaw(s, r, context, cut).None?
  {
  }
}

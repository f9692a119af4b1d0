/**
 Frozen values crossing the kernel boundary (kernel/types.py).
 */
module Types {
  import opened Canon

  datatype DecisionKind = Allow | Deny | RequireReview

  /** The stages of a Command's trajectory; every other Act type is consequential. */
  const LIFECYCLE_ACT_TYPES: set<string> := {
    "CommandSubmitted", "CommandValidated", "CommandRejected", "AuthorizationRequested",
    "CommandDenied", "ReviewRequested", "AuthorizationReviewed", "AuthorizationResolved",
    "CommandSuperseded", "CommandExpired"
  }

  /** Which authorization outcomes may produce which Act; anything not listed needs allow. */
  function PermittedOutcomes(actType: string): set<DecisionKind> {
    if actType == "ReviewRequested" then {RequireReview}
    else if actType == "CommandDenied" then {Deny}
    else if actType == "AuthorizationResolved" then {Allow, Deny}
    else {Allow}
  }

  datatype Identity = Identity(hash: Text, kind: string, publicKey: Bytes)

  /** Signature verification under a public key; false also for a malformed key. */
  type Verifier = (Bytes, Bytes, Value) -> bool

  datatype Context = Context(values: map<string, Value>, types: map<string, Text>)

  function ContextValue(c: Context): Value {
    Obj(map["types" := Obj(map key | key in c.types :: Str(c.types[key])), "values" := Obj(c.values)])
  }

  function ContextHash(c: Context): Text {
    ObjectHash("context", ContextValue(c))
  }

  lemma ContextHashInjective(a: Context, b: Context)
    requires ContextHash(a) == ContextHash(b)
    ensures a == b
  {
    var v, w := ContextValue(a).fields, ContextValue(b).fields;
    assert v["values"] == w["values"] && v["types"] == w["types"];
    assert v["types"].fields.Keys == a.types.Keys && w["types"].fields.Keys == b.types.Keys;
    forall key | key in a.types ensures a.types[key] == b.types[key] {
      assert v["types"].fields[key] == Str(a.types[key]) && w["types"].fields[key] == Str(b.types[key]);
    }
  }

  datatype Command = Command(
    commandType: string,
    identityHash: Text,
    payloadHash: Text,
    parents: seq<Text>,
    nonce: Text,
    signature: Bytes)

  function SigningValue(c: Command): Value {
    Obj(map[
      "command_type" := Str(Plain(c.commandType)),
      "identity_hash" := Str(c.identityHash),
      "nonce" := Str(c.nonce),
      "parents" := Strs(c.parents),
      "payload_hash" := Str(c.payloadHash)])
  }

  function CommandHash(c: Command): Text {
    ObjectHash("command", SigningValue(c))
  }

  predicate IsCommandHash(t: Text) {
    t.Digest? && t.kind == "command"
  }

  /** The hash leaves out the signature and nothing else. */
  lemma CommandHashInjective(a: Command, b: Command)
    requires CommandHash(a) == CommandHash(b)
    ensures a.(signature := b.signature) == b
  {
    var v, w := SigningValue(a).fields, SigningValue(b).fields;
    assert v["command_type"] == w["command_type"];
    assert v["identity_hash"] == w["identity_hash"];
    assert v["nonce"] == w["nonce"];
    assert v["parents"] == w["parents"];
    assert v["payload_hash"] == w["payload_hash"];
    StrsInjective(a.parents, b.parents);
  }

  datatype Decision = Decision(
    outcome: DecisionKind,
    cut: set<Text>,
    ruleHashes: seq<Text>,
    registryCut: set<Text>,
    reason: string)

  datatype Act = Act(
    hash: Text,
    actType: string,
    identityHash: Text,
    parents: seq<Text>,
    decisionCut: set<Text>,
    commandHash: Text,
    authChain: seq<Text>,
    registryCut: set<Text>,
    ruleHashes: seq<Text>,
    contextHash: Text,
    payloadHash: Text,
    claimedWhen: Option<Text>)

  predicate IsLifecycle(actType: string) {
    actType in LIFECYCLE_ACT_TYPES
  }

  function Optional(text: Option<Text>): Value {
    match text case None => Null case Some(t) => Str(t)
  }

  /** The canonical value recomputed from what an Act itself records. */
  function RecordedValue(a: Act): Value {
    Obj(map[
      "act_type" := Str(Plain(a.actType)),
      "auth_chain" := Strs(a.authChain),
      "claimed_when" := Optional(a.claimedWhen),
      "command_hash" := Str(a.commandHash),
      "context_hash" := Str(a.contextHash),
      "decision_cut" := Sorted(a.decisionCut),
      "identity_hash" := Str(a.identityHash),
      "parents" := Strs(a.parents),
      "payload_hash" := Str(a.payloadHash),
      "registry_cut" := Sorted(a.registryCut),
      "rule_hashes" := Strs(a.ruleHashes)])
  }

  function RecordedHash(a: Act): Text {
    ObjectHash("act", RecordedValue(a))
  }

  predicate IsActHash(t: Text) {
    t.Digest? && t.kind == "act"
  }

  /** The fields of a recorded value, read back one by one. */
  lemma RecordedTexts(a: Act)
    ensures var v := RecordedValue(a).fields;
            v["act_type"] == Str(Plain(a.actType)) && v["command_hash"] == Str(a.commandHash) &&
            v["context_hash"] == Str(a.contextHash) && v["identity_hash"] == Str(a.identityHash) &&
            v["payload_hash"] == Str(a.payloadHash) && v["claimed_when"] == Optional(a.claimedWhen)
  {
  }

  lemma RecordedLists(a: Act)
    ensures var v := RecordedValue(a).fields;
            v["auth_chain"] == Strs(a.authChain) && v["parents"] == Strs(a.parents) &&
            v["rule_hashes"] == Strs(a.ruleHashes) && v["decision_cut"] == Sorted(a.decisionCut) &&
            v["registry_cut"] == Sorted(a.registryCut)
  {
  }

  /** Equal content hashes leave no field of an Act free. */
  lemma RecordedHashInjective(a: Act, b: Act)
    requires RecordedHash(a) == RecordedHash(b)
    ensures a.(hash := b.hash) == b
  {
    RecordedTexts(a);
    RecordedTexts(b);
    RecordedLists(a);
    RecordedLists(b);
    StrsInjective(a.authChain, b.authChain);
    StrsInjective(a.parents, b.parents);
    StrsInjective(a.ruleHashes, b.ruleHashes);
  }
}

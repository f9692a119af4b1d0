/**
 A ledger as the ceremony leaves it: one seeded Act, one Identity, and a vocabulary born at the seed.
 */
module Founding {
  import opened Canon
  import opened Types
  import opened Ledgers
  import opened Gate
  import opened Consequence
  import opened Authority
  import opened Postgres
  import opened Workers
  import opened Schedules

  const GENESIS: Text := ObjectHash("genesis_act", Str(Plain("GenesisClosed")))
  const RULE: Text := ObjectHash("rule", Str(ROOT_AUTHORITY))

  function EntryOf(kind: string, name: string): Entry {
    Entry(kind, Plain(name), ObjectHash("registry", Str(Plain(name))), GENESIS, 1, false, Null)
  }

  const RULE_ENTRY: Entry := Entry("rule", ROOT_AUTHORITY, RULE, GENESIS, 1, true, Null)

  function Entries(kind: string, names: seq<string>): seq<Entry> {
    seq(|names|, i requires 0 <= i < |names| => EntryOf(kind, names[i]))
  }

  function Vocabulary(commandTypes: seq<string>, actTypes: seq<string>, contextTypes: seq<string>): seq<Entry> {
    [RULE_ENTRY] + Entries("command_type", commandTypes) + Entries("act_type", actTypes)
    + Entries("context_type", contextTypes)
  }

  function Seed(identity: Identity): Act {
    Act(GENESIS, "GenesisClosed", identity.hash, [], {}, Plain("genesis-command"), [], {}, [], Plain("context"),
        Plain("payload"), None)
  }

  function FoundedLedger(identity: Identity, payload: Value, commandTypes: seq<string>, actTypes: seq<string>,
                         contextTypes: seq<string>): Ledger {
    Ledger(map[ObjectHash("payload", payload) := Record(Canonical(payload), "payload")],
           map[GENESIS := Seed(identity)], [GENESIS], Vocabulary(commandTypes, actTypes, contextTypes),
           map[identity.hash := identity], map[])
  }

  /** An Identity that has signed a Command over a stored payload. */
  predicate Founder(ed: Verifier, identity: Identity, command: Command, payload: Value) {
    && IsHash(identity.hash) && identity.hash == command.identityHash
    && ed(identity.publicKey, command.signature, SigningValue(command))
    && command.commandType != "" && command.parents == [] && command.payloadHash == ObjectHash("payload", payload)
  }

  /** A submission governed by the one rule, in an empty Context. */
  function Ask(identity: Identity, command: Command, actType: string, outcome: DecisionKind, cut: set<Text>,
               chain: seq<Text>): Submission {
    Submission(identity, command, Decision(outcome, cut, [RULE], {GENESIS}, ""), Context(map[], map[]), actType,
               chain, None)
  }

  /** The registry holds at least this vocabulary, and the seed it was born at is known. */
  predicate Speaks(s: Ledger, commandTypes: seq<string>, actTypes: seq<string>, contextTypes: seq<string>) {
    GENESIS in s.acts && forall e | e in Vocabulary(commandTypes, actTypes, contextTypes) :: e in s.registry
  }

  lemma EntriesHold(v: seq<Entry>, at: nat, kind: string, names: seq<string>)
    requires at + |names| <= |v| && v[at..at + |names|] == Entries(kind, names)
    ensures forall name | name in names :: EntryOf(kind, name) in v
  {
    forall name | name in names ensures EntryOf(kind, name) in v {
      var i :| 0 <= i < |names| && names[i] == name;
      assert v[at..at + |names|][i] == v[at + i] == EntryOf(kind, name);
    }
  }

  lemma VocabularyHolds(commandTypes: seq<string>, actTypes: seq<string>, contextTypes: seq<string>)
    ensures var v := Vocabulary(commandTypes, actTypes, contextTypes);
            && RULE_ENTRY in v
            && (forall name | name in commandTypes :: EntryOf("command_type", name) in v)
            && (forall name | name in actTypes :: EntryOf("act_type", name) in v)
            && (forall name | name in contextTypes :: EntryOf("context_type", name) in v)
  {
    hide EntryOf;
    var v := Vocabulary(commandTypes, actTypes, contextTypes);
    var m, n, k := 1 + |commandTypes|, 1 + |commandTypes| + |actTypes|, |v|;
    assert v[0] == RULE_ENTRY;
    assert v[1..m] == Entries("command_type", commandTypes) && v[m..n] == Entries("act_type", actTypes);
    assert v[n..k] == Entries("context_type", contextTypes);
    EntriesHold(v, 1, "command_type", commandTypes);
    EntriesHold(v, m, "act_type", actTypes);
    EntriesHold(v, n, "context_type", contextTypes);
  }

  lemma Spoken(s: Ledger, commandTypes: seq<string>, actTypes: seq<string>, contextTypes: seq<string>, cut: set<Text>)
    requires Speaks(s, commandTypes, actTypes, contextTypes) && GENESIS in cut
    ensures forall name | name in commandTypes :: Registered(s, "command_type", Plain(name), cut)
    ensures Registered(s, "rule", RULE, cut)
    ensures forall name | name in actTypes :: Registered(s, "act_type", Plain(name), cut)
    ensures forall name | name in contextTypes :: Registered(s, "context_type", Plain(name), cut)
  {
    hide Vocabulary;
    VocabularyHolds(commandTypes, actTypes, contextTypes);
  }

  lemma FoundedSpeaks(identity: Identity, payload: Value, commandTypes: seq<string>, actTypes: seq<string>,
                      contextTypes: seq<string>)
    ensures var s := FoundedLedger(identity, payload, commandTypes, actTypes, contextTypes);
            WellFormed(s) && Speaks(s, commandTypes, actTypes, contextTypes)
  {
    hide Vocabulary;
  }

  lemma FoundedOwnsNothing(identity: Identity, payload: Value, commandTypes: seq<string>, actTypes: seq<string>,
                           contextTypes: seq<string>, command: Text)
    requires command.Digest?
    ensures ActsForCommand(FoundedLedger(identity, payload, commandTypes, actTypes, contextTypes), command) == []
  {
    hide Vocabulary;
    var s := FoundedLedger(identity, payload, commandTypes, actTypes, contextTypes);
    assert s.order[..0] == [] && Owned(s.acts, [], command) == [];
  }

  lemma Governs(s: Ledger, identity: Identity, command: Command, actTypes: seq<string>, actType: string,
                outcome: DecisionKind, cut: set<Text>, chain: seq<Text>)
    requires Speaks(s, [command.commandType], actTypes, []) && actType in actTypes
    requires command.payloadHash in s.objects && command.parents == []
    ensures GovernanceFlaw(s, Ask(identity, command, actType, outcome, cut, chain)).None?
  {
    hide Registered;
    Spoken(s, [command.commandType], actTypes, [], {GENESIS});
    assert command.commandType in [command.commandType];
  }

  // --- acceptance by the RPC ---

  lemma ListsHistory(s: Ledger)
    requires WellFormed(s) && forall h | h in s.order :: IsHash(h)
    ensures Lists(s.order, HistoryCut(s)) && IsHashArray(s.order) && CutIsHistorySql(s, s.order)
  {
    DistinctByCount(s.order);
  }

  lemma RegistersByName(s: Ledger, commandTypes: seq<string>, actTypes: seq<string>, contextTypes: seq<string>,
                        commandType: string, actType: string, cut: seq<Text>)
    requires Speaks(s, commandTypes, actTypes, contextTypes)
    requires commandType in commandTypes && actType in actTypes && GENESIS in cut
    ensures RegisteredByName(s, "command_type", Plain(commandType), cut)
    ensures RegisteredByName(s, "act_type", Plain(actType), cut)
    ensures RegisteredByHash(s, "rule", RULE, cut)
  {
    hide Vocabulary;
    VocabularyHolds(commandTypes, actTypes, contextTypes);
    assert EntryOf("command_type", commandType) in s.registry && EntryOf("act_type", actType) in s.registry;
  }

  /** What the RPC asks for besides the vocabulary: everything it names is a hash that is known. */
  predicate Known(s: Ledger, q: Submission) {
    && WellFormed(s) && (forall h | h in s.order :: IsHash(h)) && q.decision.cut == HistoryCut(s)
    && IsHash(q.identity.hash) && q.identity.hash in s.identities && q.command.commandType != ""
    && IsHash(q.command.payloadHash) && q.command.payloadHash in s.objects && ContextHash(q.context) in s.objects
    && q.command.parents == [] && q.decision.ruleHashes == [RULE]
    && IsHashArray(q.authChain) && (forall h | h in q.authChain :: h in s.acts)
    && ActHash(q) !in s.objects && (IsLifecycle(q.actType) || !ConsequenceIndexHolds(s, CommandHash(q.command)))
  }

  /** The RPC has nothing against a submission of known things at the history it sees. */
  lemma RpcAcceptsKnown(s: Ledger, q: Submission, commandTypes: seq<string>, actTypes: seq<string>,
                        contextTypes: seq<string>, registryCut: seq<Text>)
    requires Known(s, q) && Speaks(s, commandTypes, actTypes, contextTypes)
    requires q.command.commandType in commandTypes && q.actType in actTypes
    requires Lists(registryCut, q.decision.registryCut) && IsHashArray(registryCut) && GENESIS in registryCut
    requires forall h | h in registryCut :: h in s.acts
    ensures RpcAccepts(s, q)
  {
    hide Speaks, RegisteredByName, RegisteredByHash, CutIsHistorySql, CanonicalValue, SigningValue, ContextValue;
    hide WellFormed, ConsequenceIndexHolds;
    ListsHistory(s);
    RegistersByName(s, commandTypes, actTypes, contextTypes, q.command.commandType, q.actType, registryCut);
    NoItems();
    OneItem(RULE);
    assert RpcAcceptsAs(s, q, s.order, registryCut);
  }

  lemma NoItems()
    ensures IsHashArray([])
  {
    DistinctByCount<Text>([]);
  }

  lemma OneItem(item: Text)
    requires IsHash(item)
    ensures IsHashArray([item]) && Lists([item], {item})
  {
    DistinctByCount([item]);
  }

  /** Only payloads are stored so far, and they are nothing the gate writes. */
  predicate OnlyPayloads(s: Ledger) {
    && (forall h | h in s.objects :: h.Digest? && h.kind == "payload")
    && (forall h | h in s.acts :: h.Digest? && h.kind == "genesis_act")
  }

  lemma FreeAmongPayloads(s: Ledger, q: Submission)
    requires OnlyPayloads(s)
    ensures Unobstructed(s, q) && ActHash(q) !in s.objects && ActHash(q) !in s.acts && ActHash(q).Digest?
  {
    hide CanonicalValue, SigningValue, ContextValue;
    assert |"act"| == 3 && |"genesis_act"| == 11 && "context"[0] != "payload"[0] && "command"[0] != "payload"[0];
  }
}

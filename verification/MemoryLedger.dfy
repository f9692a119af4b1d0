/**
 The in-memory ledger (kernel/memory.py, ledger/memory.py).  A dictionary keeps insertion
 order; for `acts` that order is the field `order`.
 */
module MemoryLedgers {
  import opened Canon
  import opened Types
  import opened Ledgers
  import opened Gate

  function Hashes(acts: seq<Act>): seq<Text> {
    seq(|acts|, i requires 0 <= i < |acts| => acts[i].hash)
  }

  function Lookup(index: map<Text, seq<Text>>, command: Text): seq<Text> {
    if command in index then index[command] else []
  }

  /** The index names only stored Acts, and under each Command hash exactly its Acts in commit
      order.  Seeded Acts may be indexed or not, as long as they own no real Command. */
  ghost predicate IndexAgrees(index: map<Text, seq<Text>>, acts: map<Text, Act>, order: seq<Text>) {
    && (forall c, h | c in index && h in index[c] :: h in acts)
    && (forall c | IsCommandHash(c) :: Lookup(index, c) == Hashes(Owned(acts, order, c)))
  }

  lemma OwnedAppend(acts: map<Text, Act>, order: seq<Text>, a: Act, command: Text)
    requires acts.Keys == ToSet(order) && a.hash !in acts
    ensures Owned(acts[a.hash := a], order + [a.hash], command)
         == Owned(acts, order, command) + if a.commandHash == command then [a] else []
  {
    forall h | h in order ensures h in acts && h != a.hash {
      assert h in ToSet(order);
    }
    OwnedFrame(acts, acts[a.hash := a], order, command);
    assert (order + [a.hash])[..|order + [a.hash]| - 1] == order;
  }

  lemma IndexAppend(index: map<Text, seq<Text>>, acts: map<Text, Act>, order: seq<Text>, a: Act)
    requires IndexAgrees(index, acts, order) && acts.Keys == ToSet(order) && a.hash !in acts
    ensures IndexAgrees(Indexed(index, a), acts[a.hash := a], order + [a.hash])
  {
    var index', acts', order' := Indexed(index, a), acts[a.hash := a], order + [a.hash];
    forall c | IsCommandHash(c) ensures Lookup(index', c) == Hashes(Owned(acts', order', c)) {
      OwnedAppend(acts, order, a, c);
      assert Lookup(index, c) == Hashes(Owned(acts, order, c));
    }
  }

  predicate Precedes(order: seq<Text>, g: Text, h: Text) {
    exists p, q | 0 <= p < q < |order| :: order[p] == g && order[q] == h
  }

  /** What the index holds under a Command: each of its Acts once, in the order they were placed. */
  lemma {:induction false} OwnedInOrder(acts: map<Text, Act>, order: seq<Text>, command: Text)
    requires Distinct(order) && acts.Keys >= ToSet(order)
    requires forall h | h in acts :: acts[h].hash == h
    ensures var hs := Hashes(Owned(acts, order, command));
            && Distinct(hs)
            && (forall h :: h in hs <==> h in order && acts[h].commandHash == command)
            && InOrder(order, hs)
  {
    if order != [] {
      var n := |order| - 1;
      var init, last := order[..n], order[n];
      assert order == init + [last];
      ToSetAppend(init, last);
      assert last in ToSet(order) && last !in init;
      OwnedInOrder(acts, init, command);
      var earlier := Hashes(Owned(acts, init, command));
      assert Hashes(Owned(acts, order, command)) ==
               if acts[last].commandHash == command then earlier + [last] else earlier;
      InOrderAppend(init, last, earlier);
    }
  }

  predicate InOrder(order: seq<Text>, hs: seq<Text>) {
    forall i, j | 0 <= i < j < |hs| :: Precedes(order, hs[i], hs[j])
  }

  lemma InOrderAppend(order: seq<Text>, x: Text, hs: seq<Text>)
    requires InOrder(order, hs) && forall h | h in hs :: h in order
    ensures InOrder(order + [x], hs) && InOrder(order + [x], hs + [x])
  {
    var order', n := order + [x], |order|;
    forall i, j | 0 <= i < j < |hs| ensures Precedes(order', hs[i], hs[j]) {
      var p, q :| 0 <= p < q < |order| && order[p] == hs[i] && order[q] == hs[j];
      assert order'[p] == hs[i] && order'[q] == hs[j];
    }
    forall i | 0 <= i < |hs| ensures Precedes(order', hs[i], x) {
      assert hs[i] in order;
      var p :| 0 <= p < |order| && order[p] == hs[i];
      assert order'[p] == hs[i] && order'[n] == x;
    }
  }

  /** The index with an Act added at the end of its Command's entry. */
  function Indexed(index: map<Text, seq<Text>>, a: Act): map<Text, seq<Text>> {
    index[a.commandHash := Lookup(index, a.commandHash) + [a.hash]]
  }

  predicate SameKey(e: Entry, f: Entry) {
    e.kind == f.kind && e.name == f.name && e.bornAt == f.bornAt
  }

  function Definition(kind: string, name: Text, version: int): Value {
    Obj(map["kind" := Str(Plain(kind)), "name" := Str(name), "version" := Number(version as real)])
  }

  /** The hash of a registry entry: the one given, a rule's name where that is a hash already, or the
      content hash of the entry's definition. */
  function DefinitionHash(kind: string, name: Text, version: int, entryHash: Option<Text>): Text {
    if entryHash.Some? && entryHash.value != Plain("") then entryHash.value
    else if kind == "rule" && (name.Digest? || |name.chars| == 64) then name
    else
      ObjectHash("registry", Definition(kind, name, version))
  }

  function EntryFor(kind: string, name: Text, bornAt: Text, version: int, constitutional: bool,
                    entryHash: Option<Text>): Entry {
    Entry(kind, name, DefinitionHash(kind, name, version, entryHash), bornAt, version, constitutional,
          Definition(kind, name, version))
  }

  /** A given hash is kept; a rule named by a hash is registered under it; any other entry under a hash that
      tells its kind, name and version. */
  lemma HashOfEntry(kind: string, name: Text, version: int, kind': string, name': Text, version': int, given: Text)
    ensures given != Plain("") ==> DefinitionHash(kind, name, version, Some(given)) == given
    ensures DefinitionHash(kind, name, version, Some(Plain(""))) == DefinitionHash(kind, name, version, None)
    ensures kind == "rule" && IsHash(name) ==> DefinitionHash(kind, name, version, None) == name
    ensures kind != "rule" && kind' != "rule"
            && DefinitionHash(kind, name, version, None) == DefinitionHash(kind', name', version', None) ==>
              kind == kind' && name == name' && version == version'
  {
    var v, w := Definition(kind, name, version).fields, Definition(kind', name', version').fields;
    assert v["kind"] == Str(Plain(kind)) && v["name"] == Str(name) && v["version"] == Number(version as real);
    assert w["kind"] == Str(Plain(kind')) && w["name"] == Str(name') && w["version"] == Number(version' as real);
  }

  function Instead(e: Entry, entry: Entry): Entry {
    if SameKey(e, entry) then entry else e
  }

  /** A dictionary update: in place where the key is known, at the end where it is not. */
  function Registering(registry: seq<Entry>, entry: Entry): seq<Entry> {
    var updated := seq(|registry|, i requires 0 <= i < |registry| => Instead(registry[i], entry));
    if exists k :: 0 <= k < |registry| && SameKey(registry[k], entry) then updated else registry + [entry]
  }

  /** Registration keeps one entry per kind, name and birth, the newest, and every other entry where it was:
      a version born elsewhere takes nobody's place. */
  lemma RegisteringKeepsKeys(registry: seq<Entry>, entry: Entry)
    requires forall i, j | 0 <= i < j < |registry| ::
               (registry[i].kind, registry[i].name, registry[i].bornAt)
               != (registry[j].kind, registry[j].name, registry[j].bornAt)
    ensures var r := Registering(registry, entry);
            && entry in r && |registry| <= |r| <= |registry| + 1
            && (forall i, j | 0 <= i < j < |r| ::
                  (r[i].kind, r[i].name, r[i].bornAt) != (r[j].kind, r[j].name, r[j].bornAt))
            && forall i | 0 <= i < |registry| ::
                 r[i] == if registry[i].kind == entry.kind && registry[i].name == entry.name
                            && registry[i].bornAt == entry.bornAt
                         then entry else registry[i]
  {
    var r := Registering(registry, entry);
    if k :| 0 <= k < |registry| && SameKey(registry[k], entry) {
      assert r[k] == entry;
    } else {
      assert r[|registry|] == entry;
    }
  }

  class MemoryLedger {
    var objects: map<Text, Record>
    var acts: map<Text, Act>
    var order: seq<Text>
    var commandIndex: map<Text, seq<Text>>
    var registry: seq<Entry>
    var identities: map<Text, Identity>
    var bindings: map<(Text, Text), Text>

    function View(): Ledger
      reads this
    {
      Ledger(objects, acts, order, registry, identities, bindings)
    }

    ghost predicate Valid()
      reads this
    {
      && WellFormed(View())
      && IndexAgrees(commandIndex, acts, order)
    }

    constructor ()
      ensures Valid()
      ensures View() == Ledger(map[], map[], [], [], map[], map[])
    {
      objects, acts, order, commandIndex := map[], map[], [], map[];
      registry, identities, bindings := [], map[], map[];
    }

    /** An existing object is never overwritten with anything else. */
    method PutObject(h: Text, canon: Blob, kind: string) returns (ok: bool)
      requires Valid()
      modifies this`objects
      ensures Valid()
      ensures ok == Ledgers.PutObject(old(View()), h, Record(canon, kind)).Some?
      ensures View() == Ledgers.PutObject(old(View()), h, Record(canon, kind)).GetOr(old(View()))
    {
      if h in objects && objects[h] != Record(canon, kind) {
        return false;
      }
      objects := objects[h := Record(canon, kind)];
      return true;
    }

    method AppendAct(act: Act) returns (ok: bool)
      requires Valid()
      modifies this`acts, this`order, this`commandIndex
      ensures Valid()
      ensures ok == (act.hash !in old(acts))
      ensures ok ==> acts == old(acts)[act.hash := act] && order == old(order) + [act.hash]
      ensures ok ==> commandIndex == Indexed(old(commandIndex), act)
      ensures !ok ==> unchanged(this)
    {
      if act.hash in acts {
        return false;
      }
      IndexAppend(commandIndex, acts, order, act);
      ToSetAppend(order, act.hash);
      assert act.hash !in ToSet(order);
      acts := acts[act.hash := act];
      order := order + [act.hash];
      commandIndex := Indexed(commandIndex, act);
      return true;
    }

    /** Write the Act's bytes, then the Act; when the Act is refused, take back bytes that were not
        there before, which leaves the store exactly as it was. */
    method WriteAct(act: Act, canon: Blob) returns (ok: bool)
      requires Valid()
      requires act.hash in objects ==> objects[act.hash] == Record(canon, "act")
      modifies this
      ensures Valid()
      ensures ok == (act.hash !in old(acts))
      ensures ok ==> View() == Append(old(View()), act, canon) && commandIndex == Indexed(old(commandIndex), act)
      ensures !ok ==> View() == old(View()) && commandIndex == old(commandIndex)
    {
      var absent := act.hash !in objects;
      objects := objects[act.hash := Record(canon, "act")];
      ok := AppendAct(act);
      if !ok && absent {
        objects := objects - {act.hash};
      }
    }

    method CommitAct(act: Act, canon: Blob) returns (r: Result<Act, CommitError>)
      requires Valid()
      modifies this
      ensures Valid()
      ensures (View(), r) == Gate.CommitAct(old(View()), act, canon)
      ensures act.hash in old(acts) ==> r == Ok(old(acts)[act.hash])
      ensures act.hash !in old(acts) && act.hash in old(objects) && old(objects)[act.hash] != Record(canon, "act") ==>
                r == Err(StoreRejected)
      ensures act.hash !in old(acts)
              && (act.hash in old(objects) ==> old(objects)[act.hash] == Record(canon, "act")) ==>
                && r == Ok(act) && acts == old(acts)[act.hash := act] && order == old(order) + [act.hash]
                && objects == old(objects)[act.hash := Record(canon, "act")]
      ensures r.Err? || act.hash in old(acts) ==> unchanged(this)
      ensures r.Ok? && act.hash !in old(acts) ==> commandIndex == Indexed(old(commandIndex), act)
    {
      if act.hash in acts {
        return Ok(acts[act.hash]);
      }
      if act.hash in objects && objects[act.hash] != Record(canon, "act") {
        return Err(StoreRejected);
      }
      var _ := WriteAct(act, canon);
      return Ok(act);
    }

    function GetAct(h: Text): (r: Option<Act>)
      reads this
      ensures r.Some? <==> h in acts
    {
      if h in acts then Some(acts[h]) else None
    }

    /** Every Act referencing this Command, read through the index: the Acts the index names, in its
        order, and for a real Command hash the Acts of history. */
    function GetActsForCommand(command: Text): (r: seq<Act>)
      requires Valid()
      reads this
      ensures |r| == |Lookup(commandIndex, command)|
      ensures forall i | 0 <= i < |r| ::
                Lookup(commandIndex, command)[i] in acts && r[i] == acts[Lookup(commandIndex, command)[i]]
      ensures IsCommandHash(command) ==> r == ActsForCommand(View(), command)
    {
      var hs, stored := Lookup(commandIndex, command), acts;
      var r := seq(|hs|, i requires 0 <= i < |hs| && hs[i] in stored => stored[hs[i]]);
      assert IsCommandHash(command) ==> r == ActsForCommand(View(), command) by {
        if IsCommandHash(command) {
          var owned := ActsForCommand(View(), command);
          assert hs == Hashes(owned);
          forall i | 0 <= i < |hs| ensures r[i] == owned[i] {
            assert owned[i] in owned;
            OwnedMembers(acts, order, command, owned[i]);
            assert hs[i] == owned[i].hash;
          }
        }
      }
      r
    }

    /** Metadata is kept per (kind, name, birth): a second registration takes the place of the first. */
    method Register(kind: string, name: Text, bornAt: Text, version: int, constitutional: bool, entryHash: Option<Text>)
      requires Valid()
      modifies this`registry
      ensures Valid()
      ensures registry == Registering(old(registry), EntryFor(kind, name, bornAt, version, constitutional, entryHash))
    {
      var entry := EntryFor(kind, name, bornAt, version, constitutional, entryHash);
      var kept := [];
      var placed := false;
      for i := 0 to |registry|
        invariant |kept| == i && forall k | 0 <= k < i :: kept[k] == Instead(registry[k], entry)
        invariant placed <==> exists k | 0 <= k < i :: SameKey(registry[k], entry)
      {
        placed := placed || SameKey(registry[i], entry);
        kept := kept + [Instead(registry[i], entry)];
      }
      registry := if placed then kept else kept + [entry];
    }

    method LinkPrincipal(issuer: Text, subject: Text, identityHash: Text)
      requires Valid()
      modifies this`bindings
      ensures Valid()
      ensures View() == old(View()).(bindings := old(bindings)[(issuer, subject) := identityHash])
    {
      bindings := bindings[(issuer, subject) := identityHash];
    }

    /** The binding stops resolving; history keeps the Act that made it. */
    method RevokePrincipal(issuer: Text, subject: Text)
      requires Valid()
      modifies this`bindings
      ensures Valid()
      ensures View() == old(View()).(bindings := old(bindings) - {(issuer, subject)})
    {
      bindings := bindings - {(issuer, subject)};
    }

    method ListActs(limit: int) returns (r: Option<seq<Act>>)
      requires Valid()
      ensures limit < 1 <==> r.None?
      ensures r.Some? ==>
                && |r.value| == (if limit <= |order| then limit else |order|)
                && Hashes(r.value) == order[|order| - |r.value|..]
    {
      if limit < 1 {
        return None;
      }
      var from := if limit <= |order| then |order| - limit else 0;
      forall i | from <= i < |order| ensures order[i] in acts {
        assert order[i] in ToSet(order);
      }
      var hs, stored := order[from..], acts;
      var listed := seq(|hs|, i requires 0 <= i < |hs| && hs[i] in stored => stored[hs[i]]);
      assert Hashes(listed) == hs;
      return Some(listed);
    }
  }
}

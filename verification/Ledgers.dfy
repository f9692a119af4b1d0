/**
 The contents of a ledger, as one value (kernel/memory.py, ledger/memory.py, ledger/base.py).

 `order` is the insertion order of `acts`: that of the Python dictionary, and of the `seq`
 column of the acts table.
 */
module Ledgers {
  import opened Canon
  import opened Types

  datatype Record = Record(canon: Blob, kind: string)

  datatype Entry = Entry(
    kind: string,
    name: Text,
    hash: Text,
    bornAt: Text,
    version: int,
    constitutional: bool,
    definition: Value)

  datatype Ledger = Ledger(
    objects: map<Text, Record>,
    acts: map<Text, Act>,
    order: seq<Text>,
    registry: seq<Entry>,
    identities: map<Text, Identity>,
    bindings: map<(Text, Text), Text>)

  predicate Distinct<T(==)>(xs: seq<T>) {
    forall i, j | 0 <= i < j < |xs| :: xs[i] != xs[j]
  }

  function ToSet<T(==)>(xs: seq<T>): set<T> {
    set x | x in xs
  }

  lemma DistinctCardinality<T>(xs: seq<T>)
    requires Distinct(xs)
    ensures |ToSet(xs)| == |xs|
  {
    if xs == [] {
      assert ToSet(xs) == {};
    } else {
      var init, last := xs[..|xs| - 1], xs[|xs| - 1];
      DistinctCardinality(init);
      assert ToSet(xs) == ToSet(init) + {last};
      assert last !in init;
    }
  }

  lemma ToSetAppend<T>(xs: seq<T>, x: T)
    ensures ToSet(xs + [x]) == ToSet(xs) + {x}
  {
  }

  /** Every Act is stored at its own hash, and listed once in the order. */
  predicate WellFormed(s: Ledger) {
    && Distinct(s.order)
    && s.acts.Keys == ToSet(s.order)
    && forall h | h in s.acts :: s.acts[h].hash == h
  }

  // --- reads ---

  function HistoryCut(s: Ledger): set<Text> {
    s.acts.Keys
  }

  predicate Registered(s: Ledger, kind: string, name: Text, cut: set<Text>) {
    exists e | e in s.registry :: e.kind == kind && (e.name == name || e.hash == name) && e.bornAt in cut
  }

  predicate IsClosedCut(s: Ledger, cut: set<Text>) {
    forall h | h in cut :: h in s.acts && ToSet(s.acts[h].parents) <= cut
  }

  /** The Acts at the given hashes that belong to one Command, in that order. */
  function Owned(acts: map<Text, Act>, order: seq<Text>, command: Text): seq<Act> {
    if order == [] then []
    else
      var earlier := Owned(acts, order[..|order| - 1], command);
      var last := order[|order| - 1];
      if last in acts && acts[last].commandHash == command then earlier + [acts[last]] else earlier
  }

  function ActsForCommand(s: Ledger, command: Text): seq<Act> {
    Owned(s.acts, s.order, command)
  }

  /** The Acts that the links of an authorization chain resolve to; dangling links drop out. */
  function Linked(acts: map<Text, Act>, chain: seq<Text>): seq<Act> {
    if chain == [] then []
    else
      var earlier := Linked(acts, chain[..|chain| - 1]);
      var last := chain[|chain| - 1];
      if last in acts then earlier + [acts[last]] else earlier
  }

  lemma {:induction false} OwnedMembers(acts: map<Text, Act>, order: seq<Text>, command: Text, a: Act)
    ensures a in Owned(acts, order, command)
       <==> a.commandHash == command && exists h :: h in order && h in acts && acts[h] == a
  {
    if order != [] {
      var init, last := order[..|order| - 1], order[|order| - 1];
      OwnedMembers(acts, init, command, a);
      assert order == init + [last];
    }
  }

  lemma {:induction false} OwnedFrame(acts: map<Text, Act>, acts': map<Text, Act>, order: seq<Text>, command: Text)
    requires forall h | h in order :: h in acts && h in acts' && acts[h] == acts'[h]
    ensures Owned(acts, order, command) == Owned(acts', order, command)
  {
    if order != [] {
      OwnedFrame(acts, acts', order[..|order| - 1], command);
    }
  }

  lemma {:induction false} LinkedMembers(acts: map<Text, Act>, chain: seq<Text>, a: Act)
    ensures a in Linked(acts, chain) <==> exists h :: h in chain && h in acts && acts[h] == a
  {
    if chain != [] {
      var init, last := chain[..|chain| - 1], chain[|chain| - 1];
      LinkedMembers(acts, init, a);
      assert chain == init + [last];
    }
  }

  // --- writes ---

  /** Store an object at a hash; bytes or kind that differ from what is there collide. */
  function PutObject(s: Ledger, h: Text, record: Record): Option<Ledger> {
    if h in s.objects && s.objects[h] != record then None
    else Some(s.(objects := s.objects[h := record]))
  }

  /** Place an Act, with its canonical bytes, at the end of history. */
  function Append(s: Ledger, act: Act, canon: Blob): Ledger {
    s.(objects := s.objects[act.hash := Record(canon, "act")],
       acts := s.acts[act.hash := act],
       order := s.order + [act.hash])
  }

  // --- growth ---

  predicate SameOn<K, V(==)>(m: map<K, V>, n: map<K, V>) {
    forall k | k in m :: k in n && n[k] == m[k]
  }

  /** Append-only growth: nothing recorded is lost, moved or rewritten. */
  predicate Extends(s: Ledger, t: Ledger) {
    && s.order <= t.order
    && SameOn(s.acts, t.acts)
    && SameOn(s.objects, t.objects)
  }

  /** Once the order repeats nothing, growth that adds no hash adds nothing. */
  lemma SameCutSameHistory(s: Ledger, t: Ledger)
    requires WellFormed(s) && WellFormed(t) && Extends(s, t)
    requires t.acts.Keys <= s.acts.Keys
    ensures t.acts == s.acts && t.order == s.order
  {
    DistinctCardinality(s.order);
    DistinctCardinality(t.order);
    assert t.acts.Keys == s.acts.Keys;
  }
}

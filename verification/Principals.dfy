/**
 Binding credential principals to Identities: governed Acts, and the two projections that follow
 them, in memory and in the binding table (service/principals.py, ledger/memory.py,
 ledger/postgres.py and the principal_bindings migration).
 */
module Principals {
  import opened Canon
  import opened Types
  import opened Ledgers
  import opened History
  import opened Ancestry
  import opened Projection
  import opened Requests
  import opened Authority
  import opened AuthorityServices
  import opened MemoryLedgers

  type Key = (Text, Text)

  // --- the binding table ---

  datatype Row = Row(issuer: Text, subject: Text, identityHash: Text, linkedAct: Text, unlinkedAct: Option<Text>) {
    predicate LiveFor(key: Key) {
      (issuer, subject) == key && unlinkedAct.None?
    }
  }

  /** Insert, unless the row is there already; the partial unique index refuses a second live row. */
  function LinkRow(rows: seq<Row>, key: Key, identityHash: Text, act: Text): Option<seq<Row>> {
    if exists row :: row in rows && (row.issuer, row.subject) == key && row.linkedAct == act then Some(rows)
    else if exists row :: row in rows && row.LiveFor(key) then None
    else Some(rows + [Row(key.0, key.1, identityHash, act, None)])
  }

  function Unlink(row: Row, key: Key, act: Text): Row {
    if row.LiveFor(key) then row.(unlinkedAct := Some(act)) else row
  }

  function UnlinkRows(rows: seq<Row>, key: Key, act: Text): seq<Row> {
    seq(|rows|, i requires 0 <= i < |rows| => Unlink(rows[i], key, act))
  }

  /** At most one live row per principal. */
  predicate SingleLive(rows: seq<Row>) {
    forall i, j | 0 <= i < j < |rows| ::
      rows[i].unlinkedAct.None? && rows[j].unlinkedAct.None? ==>
        (rows[i].issuer, rows[i].subject) != (rows[j].issuer, rows[j].subject)
  }

  /** The map resolves exactly the principals with a live row, each to the Identity of that row. */
  predicate Shows(rows: seq<Row>, bindings: map<Key, Text>) {
    && (forall row | row in rows && row.unlinkedAct.None? ::
          (row.issuer, row.subject) in bindings && bindings[(row.issuer, row.subject)] == row.identityHash)
    && (forall key | key in bindings :: exists row | row in rows :: row.LiveFor(key))
  }

  class BindingTable {
    var rows: seq<Row>

    constructor ()
      ensures rows == []
    {
      rows := [];
    }

    method LinkPrincipal(issuer: Text, subject: Text, identityHash: Text, linkedAct: Text) returns (ok: bool)
      requires SingleLive(rows)
      modifies this
      ensures SingleLive(rows)
      ensures ok == LinkRow(old(rows), (issuer, subject), identityHash, linkedAct).Some?
      ensures rows == LinkRow(old(rows), (issuer, subject), identityHash, linkedAct).GetOr(old(rows))
      ensures ok && rows != old(rows) ==> rows == old(rows) + [Row(issuer, subject, identityHash, linkedAct, None)]
      ensures !ok || rows == old(rows) <==>
                exists row | row in old(rows) ::
                  (row.issuer, row.subject) == (issuer, subject)
                  && (row.linkedAct == linkedAct || row.unlinkedAct.None?)
      ensures ok && rows == old(rows) <==>
                exists row | row in old(rows) ::
                  (row.issuer, row.subject) == (issuer, subject) && row.linkedAct == linkedAct
    {
      var key := (issuer, subject);
      if exists row :: row in rows && (row.issuer, row.subject) == key && row.linkedAct == linkedAct {
        return true;
      }
      if exists row :: row in rows && row.LiveFor(key) {
        return false;
      }
      assert forall i | 0 <= i < |rows| :: rows[i] in rows && !rows[i].LiveFor(key);
      rows := rows + [Row(issuer, subject, identityHash, linkedAct, None)];
      return true;
    }

    method RevokePrincipal(issuer: Text, subject: Text, unlinkedAct: Text)
      requires SingleLive(rows)
      modifies this
      ensures SingleLive(rows)
      ensures rows == UnlinkRows(old(rows), (issuer, subject), unlinkedAct)
      ensures |rows| == |old(rows)|
      ensures forall i | 0 <= i < |rows| ::
                var row := old(rows)[i];
                rows[i] == if (row.issuer, row.subject) == (issuer, subject) && row.unlinkedAct.None?
                           then Row(issuer, subject, row.identityHash, row.linkedAct, Some(unlinkedAct)) else row
      ensures forall row | row in rows :: !row.LiveFor((issuer, subject))
    {
      var updated := [];
      for i := 0 to |rows|
        invariant |updated| == i
        invariant forall k | 0 <= k < i :: updated[k] == Unlink(rows[k], (issuer, subject), unlinkedAct)
      {
        updated := updated + [Unlink(rows[i], (issuer, subject), unlinkedAct)];
      }
      rows := updated;
    }
  }

  lemma LinkShown(rows: seq<Row>, bindings: map<Key, Text>, key: Key, identityHash: Text, act: Text)
    requires Shows(rows, bindings) && key !in bindings
    requires forall row | row in rows :: row.linkedAct != act
    ensures LinkRow(rows, key, identityHash, act) == Some(rows + [Row(key.0, key.1, identityHash, act, None)])
    ensures Shows(rows + [Row(key.0, key.1, identityHash, act, None)], bindings[key := identityHash])
  {
    var added := Row(key.0, key.1, identityHash, act, None);
    var rows', bindings' := rows + [added], bindings[key := identityHash];
    assert forall row | row in rows :: !row.LiveFor(key);
    forall k | k in bindings' ensures exists row | row in rows' :: row.LiveFor(k) {
      if k == key {
        assert added in rows' && added.LiveFor(k);
      } else {
        var row :| row in rows && row.LiveFor(k);
        assert row in rows';
      }
    }
  }

  lemma UnlinkShown(rows: seq<Row>, bindings: map<Key, Text>, key: Key, act: Text)
    requires Shows(rows, bindings)
    ensures Shows(UnlinkRows(rows, key, act), bindings - {key})
  {
    var rows' := UnlinkRows(rows, key, act);
    forall row | row in rows' && row.unlinkedAct.None?
      ensures row in rows && (row.issuer, row.subject) != key
    {
      var i :| 0 <= i < |rows'| && rows'[i] == row;
      assert rows[i] in rows;
    }
    forall k | k in bindings - {key} ensures exists row | row in rows' :: row.LiveFor(k) {
      var row :| row in rows && row.LiveFor(k);
      var i :| 0 <= i < |rows| && rows[i] == row;
      assert rows'[i] == row;
    }
  }

  // --- the projection of history ---

  /** A named field of an object value that holds a non-empty string. */
  function FieldText(value: Value, name: string): Option<Text> {
    if value.Obj? && name in value.fields && value.fields[name].Str? && value.fields[name].text != Plain("")
    then Some(value.fields[name].text)
    else None
  }

  function PrincipalOf(payload: Value): Option<Key> {
    match (FieldText(payload, "issuer"), FieldText(payload, "subject"))
    case (Some(issuer), Some(subject)) => Some((issuer, subject))
    case _ => None
  }

  /** What one Act does to the bindings, judged from its stored payload alone. */
  function BindingEffect(objects: map<Text, Record>, bindings: map<Key, Text>, a: Act): map<Key, Text> {
    if a.payloadHash !in objects || !objects[a.payloadHash].canon.Canonical? then bindings
    else
      var payload := objects[a.payloadHash].canon.value;
      match PrincipalOf(payload)
      case None => bindings
      case Some(key) =>
        if a.actType == "PrincipalLinked" && FieldText(payload, "identity_hash").Some?
        then bindings[key := FieldText(payload, "identity_hash").value]
        else if a.actType == "PrincipalRevoked" then bindings - {key}
        else bindings
  }

  /** The bindings as a deterministic projection of the Acts placed after the first n. */
  function ProjectedBindings(s: Ledger, n: nat, base: map<Key, Text>): map<Key, Text>
    requires WellFormed(s) && n <= |s.order|
  {
    Fold(PlacedActs(s, n), base, (bindings, a) => BindingEffect(s.objects, bindings, a))
  }

  lemma {:induction false} FoldCongruent<S(!new)>(acts: seq<Act>, initial: S, f: (S, Act) -> S, g: (S, Act) -> S)
    requires forall a, x | a in acts :: f(x, a) == g(x, a)
    ensures Fold(acts, initial, f) == Fold(acts, initial, g)
  {
    if acts != [] {
      assert acts[|acts| - 1] in acts;
      FoldCongruent(acts[..|acts| - 1], initial, f, g);
    }
  }

  lemma SamePlacedActs(s: Ledger, t: Ledger, n: nat)
    requires WellFormed(s) && WellFormed(t) && n <= |s.order| && t.order == s.order && t.acts == s.acts
    ensures PlacedActs(t, n) == PlacedActs(s, n)
  {
    forall i | 0 <= i < |s.order| - n ensures PlacedActs(t, n)[i] == PlacedActs(s, n)[i] {
      assert At(t, n + i) == At(s, n + i);
    }
  }

  lemma PlacedPayload(s: Ledger, n: nat, a: Act)
    requires Lawful(s, n) && a in PlacedActs(s, n)
    ensures a.payloadHash in s.objects
  {
    var acts := PlacedActs(s, n);
    var i :| 0 <= i < |acts| && acts[i] == a;
    assert Justified(s.objects, s.acts, s.order[..n + i], s.acts[s.order[n + i]]);
  }

  lemma EffectStable(objects: map<Text, Record>, objects': map<Text, Record>, bindings: map<Key, Text>, a: Act)
    requires SameOn(objects, objects') && a.payloadHash in objects
    ensures BindingEffect(objects, bindings, a) == BindingEffect(objects', bindings, a)
  {
  }

  lemma ProjectionStable(s: Ledger, t: Ledger, n: nat, base: map<Key, Text>)
    requires Lawful(s, n) && WellFormed(t) && t.order == s.order && t.acts == s.acts && SameOn(s.objects, t.objects)
    ensures ProjectedBindings(t, n, base) == ProjectedBindings(s, n, base)
  {
    var acts := PlacedActs(s, n);
    SamePlacedActs(s, t, n);
    var f := (bindings: map<Key, Text>, a: Act) => BindingEffect(s.objects, bindings, a);
    var g := (bindings: map<Key, Text>, a: Act) => BindingEffect(t.objects, bindings, a);
    forall a, x | a in acts ensures f(x, a) == g(x, a) {
      PlacedPayload(s, n, a);
      EffectStable(s.objects, t.objects, x, a);
    }
    FoldCongruent(acts, base, f, g);
  }

  lemma PlacedActsExtend(s: Ledger, t: Ledger, n: nat, act: Act)
    requires WellFormed(s) && WellFormed(t) && n <= |s.order| && act.hash !in s.acts
    requires t.order == s.order + [act.hash] && t.acts == s.acts[act.hash := act]
    ensures PlacedActs(t, n) == PlacedActs(s, n) + [act]
  {
    var before, after := PlacedActs(s, n), PlacedActs(t, n);
    forall i | 0 <= i < |before| ensures after[i] == before[i] {
      assert after[i] == At(t, n + i) && before[i] == At(s, n + i);
      assert s.order[n + i] in ToSet(s.order);
    }
    assert n + |before| == |s.order| && |after| == |before| + 1;
    assert after[|before|] == At(t, |s.order|) == act;
  }

  lemma FoldSnoc<S>(acts: seq<Act>, a: Act, initial: S, apply: (S, Act) -> S)
    ensures Fold(acts + [a], initial, apply) == apply(Fold(acts, initial, apply), a)
  {
    assert (acts + [a])[..|acts + [a]| - 1] == acts;
  }

  lemma ProjectionExtends(s: Ledger, t: Ledger, n: nat, base: map<Key, Text>, act: Act)
    requires Lawful(s, n) && WellFormed(t) && act.hash !in s.acts && SameOn(s.objects, t.objects)
    requires t.order == s.order + [act.hash] && t.acts == s.acts[act.hash := act]
    ensures ProjectedBindings(t, n, base) == BindingEffect(t.objects, ProjectedBindings(s, n, base), act)
  {
    var u := s.(objects := t.objects);
    PlacedActsExtend(s, t, n, act);
    ProjectionStable(s, u, n, base);
    SamePlacedActs(s, u, n);
    FoldSnoc(PlacedActs(s, n), act, base, (bindings, a) => BindingEffect(t.objects, bindings, a));
  }

  // --- link and revoke ---

  const LINK_FIELDS: seq<string> := ["issuer", "subject", "identity_hash"]
  const REVOKE_FIELDS: seq<string> := ["issuer", "subject"]

  predicate MeetsForm(r: ActionRequest, commandType: string, actType: string, fields: seq<string>) {
    && r.commandType == commandType && r.actType == actType
    && r.payload.Some? && r.payload.value.Obj?
    && forall name | name in fields :: FieldText(r.payload.value, name).Some?
  }

  predicate IsLink(r: ActionRequest) {
    MeetsForm(r, "LinkPrincipal", "PrincipalLinked", LINK_FIELDS)
  }

  predicate IsRevoke(r: ActionRequest) {
    MeetsForm(r, "RevokePrincipal", "PrincipalRevoked", REVOKE_FIELDS)
  }

  lemma FormFields(r: ActionRequest)
    requires IsLink(r) || IsRevoke(r)
    ensures r.payload.Some? && PrincipalOf(r.payload.value).Some?
    ensures IsLink(r) ==> FieldText(r.payload.value, "identity_hash").Some?
  {
    var fields := if IsLink(r) then LINK_FIELDS else REVOKE_FIELDS;
    assert fields[0] in fields && fields[1] in fields;
    if IsLink(r) {
      assert LINK_FIELDS[2] in LINK_FIELDS;
    }
  }

  function TargetOf(r: ActionRequest): (key: Key)
    requires IsLink(r) || IsRevoke(r)
    ensures r.payload.Some? && r.payload.value.Obj?
    ensures var sent := r.payload.value.fields;
            && "issuer" in sent && sent["issuer"] == Str(key.0) && key.0 != Plain("")
            && "subject" in sent && sent["subject"] == Str(key.1) && key.1 != Plain("")
  {
    FormFields(r);
    PrincipalOf(r.payload.value).value
  }

  function LinkedIdentity(r: ActionRequest): (identity: Text)
    requires IsLink(r)
    ensures r.payload.Some? && r.payload.value.Obj?
    ensures var sent := r.payload.value.fields;
            "identity_hash" in sent && sent["identity_hash"] == Str(identity) && identity != Plain("")
  {
    FormFields(r);
    FieldText(r.payload.value, "identity_hash").value
  }

  function Link(v: Service, s: Ledger, r: ActionRequest, p: Option<Principal>):
    (Ledger, Result<(Evaluated, Act), ServiceError>)
  {
    if !IsLink(r) then (s, Err(Validation))
    else
      var (t, result) := Authority.Commit(v, s, r, p);
      if result.Err? then (t, result) else (t.(bindings := t.bindings[TargetOf(r) := LinkedIdentity(r)]), result)
  }

  function Revoke(v: Service, s: Ledger, r: ActionRequest, p: Option<Principal>):
    (Ledger, Result<(Evaluated, Act), ServiceError>)
  {
    if !IsRevoke(r) then (s, Err(Validation))
    else
      var (t, result) := Authority.Commit(v, s, r, p);
      if result.Err? then (t, result) else (t.(bindings := t.bindings - {TargetOf(r)}), result)
  }

  class PrincipalService {
    const authority: AuthorityService

    constructor (authority: AuthorityService)
      ensures this.authority == authority
    {
      this.authority := authority;
    }

    method RequirePayload(r: ActionRequest, commandType: string, actType: string, fields: seq<string>)
      returns (ok: bool)
      ensures ok == MeetsForm(r, commandType, actType, fields)
      ensures ok <==>
                && r.commandType == commandType && r.actType == actType && r.payload.Some? && r.payload.value.Obj?
                && var sent := r.payload.value.fields;
                forall name | name in fields :: name in sent && sent[name].Str? && sent[name].text != Plain("")
    {
      if r.commandType != commandType || r.actType != actType || r.payload.None? || !r.payload.value.Obj? {
        return false;
      }
      for i := 0 to |fields|
        invariant forall k | 0 <= k < i :: FieldText(r.payload.value, fields[k]).Some?
      {
        if FieldText(r.payload.value, fields[i]).None? {
          return false;
        }
      }
      return true;
    }

    method LinkPrincipal(r: ActionRequest, p: Option<Principal>)
      returns (result: Result<(Evaluated, Act), ServiceError>)
      requires authority.ledger.Valid()
      modifies authority.ledger
      ensures authority.ledger.Valid()
      ensures (authority.ledger.View(), result) == Link(authority.config, old(authority.ledger.View()), r, p)
      ensures authority.ledger.commandIndex ==
                if result.Ok? && result.value.1.hash !in old(authority.ledger.acts)
                then Indexed(old(authority.ledger.commandIndex), result.value.1)
                else old(authority.ledger.commandIndex)
    {
      hide Authority.Commit, FieldText, PrincipalOf;
      var ok := RequirePayload(r, "LinkPrincipal", "PrincipalLinked", LINK_FIELDS);
      if !ok {
        return Err(Validation);
      }
      result := authority.Commit(r, p);
      if result.Ok? {
        authority.ledger.LinkPrincipal(TargetOf(r).0, TargetOf(r).1, LinkedIdentity(r));
      }
    }

    method RevokePrincipal(r: ActionRequest, p: Option<Principal>)
      returns (result: Result<(Evaluated, Act), ServiceError>)
      requires authority.ledger.Valid()
      modifies authority.ledger
      ensures authority.ledger.Valid()
      ensures (authority.ledger.View(), result) == Revoke(authority.config, old(authority.ledger.View()), r, p)
      ensures authority.ledger.commandIndex ==
                if result.Ok? && result.value.1.hash !in old(authority.ledger.acts)
                then Indexed(old(authority.ledger.commandIndex), result.value.1)
                else old(authority.ledger.commandIndex)
    {
      hide Authority.Commit, FieldText, PrincipalOf;
      var ok := RequirePayload(r, "RevokePrincipal", "PrincipalRevoked", REVOKE_FIELDS);
      if !ok {
        return Err(Validation);
      }
      result := authority.Commit(r, p);
      if result.Ok? {
        authority.ledger.RevokePrincipal(TargetOf(r).0, TargetOf(r).1);
      }
    }
  }
}

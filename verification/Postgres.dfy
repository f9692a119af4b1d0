/**
 The atomic commit RPC and its integrity checks, in the form the database evaluates them: over
 rows and JSON arrays (ledger/postgres.py and the SQL migrations).
 */
module Postgres {
  import opened Canon
  import opened Types
  import opened Ledgers
  import opened History
  import opened Consequence

  // --- counting forms ---

  /** is_hash_array: every element a hash, and as many distinct elements as elements. */
  predicate IsHashArray(items: seq<Text>) {
    (forall item | item in items :: IsHash(item)) && |items| == |ToSet(items)|
  }

  /** The number of rows whose hash occurs in the array. */
  function CountMembers(rows: seq<Text>, items: seq<Text>): nat {
    if rows == [] then 0
    else CountMembers(rows[..|rows| - 1], items) + if rows[|rows| - 1] in items then 1 else 0
  }

  lemma {:induction false} DistinctByCount<T>(items: seq<T>)
    ensures |ToSet(items)| <= |items|
    ensures |items| == |ToSet(items)| <==> Distinct(items)
  {
    if items == [] {
      assert ToSet(items) == {};
    } else {
      var init, last := items[..|items| - 1], items[|items| - 1];
      DistinctByCount(init);
      assert items == init + [last];
      assert ToSet(items) == ToSet(init) + {last};
      if last in init {
        assert ToSet(items) == ToSet(init);
        var i :| 0 <= i < |init| && init[i] == last;
        assert items[i] == items[|init|];
      } else if Distinct(init) {
        assert Distinct(items);
      } else {
        var i, j :| 0 <= i < j < |init| && init[i] == init[j];
        assert items[i] == items[j];
      }
    }
  }

  lemma {:induction false} CountIsIntersection(rows: seq<Text>, items: seq<Text>)
    requires Distinct(rows)
    ensures CountMembers(rows, items) == |ToSet(rows) * ToSet(items)|
  {
    if rows == [] {
      assert ToSet(rows) * ToSet(items) == {};
    } else {
      var n := |rows| - 1;
      var init, last := rows[..n], rows[n];
      CountIsIntersection(init, items);
      assert rows == init + [last];
      assert forall i | 0 <= i < n :: rows[i] != rows[n];
      assert ToSet(rows) == ToSet(init) + {last} by {
        ToSetAppend(init, last);
      }
      MeetWithOneMore(ToSet(init), last, ToSet(items));
    }
  }

  lemma MeetWithOneMore<T>(a: set<T>, x: T, b: set<T>)
    requires x !in a
    ensures |(a + {x}) * b| == |a * b| + if x in b then 1 else 0
  {
    assert (a + {x}) * b == if x in b then a * b + {x} else a * b;
  }

  lemma SubsetByCount<T>(a: set<T>, b: set<T>)
    ensures |a * b| <= |b|
    ensures |a * b| == |b| <==> b <= a
  {
    var rest := b - a;
    assert b == a * b + rest && (a * b) !! rest;
    assert |b| == |a * b| + |rest|;
    if b <= a {
      assert rest == {};
    }
  }

  /** is_closed_cut as the query states it: all members are rows, and no member's row names a parent
      outside the array. */
  predicate IsClosedCutSql(db: Ledger, items: seq<Text>) {
    && CountMembers(db.order, items) == |items|
    && !exists h | h in db.order :: h in db.acts && h in items
                                    && exists p :: p in db.acts[h].parents && p !in items
  }

  /** The counting query decides exactly the set-valued check. */
  lemma ClosedCutFormsAgree(db: Ledger, items: seq<Text>)
    requires WellFormed(db) && Distinct(items)
    ensures IsClosedCutSql(db, items) <==> IsClosedCut(db, ToSet(items))
  {
    CountIsIntersection(db.order, items);
    DistinctCardinality(items);
    SubsetByCount(ToSet(db.order), ToSet(items));
    if IsClosedCutSql(db, items) {
      forall h | h in ToSet(items) ensures h in db.acts && ToSet(db.acts[h].parents) <= ToSet(items) {
        assert h in ToSet(db.order);
      }
    }
    if IsClosedCut(db, ToSet(items)) {
      forall h | h in db.order && h in db.acts && h in items
        ensures !exists p :: p in db.acts[h].parents && p !in items
      {
        assert h in ToSet(items);
        forall p | p in db.acts[h].parents ensures p in items {
          assert p in ToSet(db.acts[h].parents);
        }
      }
    }
  }

  /** The cut test of the RPC: as many rows as elements, and no row outside the array. */
  predicate CutIsHistorySql(db: Ledger, items: seq<Text>) {
    |db.order| == |items| && !exists h :: h in db.order && h !in items
  }

  /** Over a hash array, that test says the array lists exactly the history; the array must repeat
      nothing, which is what is_hash_array adds. */
  lemma CutFormsAgree(db: Ledger, items: seq<Text>)
    requires WellFormed(db)
    ensures Distinct(items) ==> (CutIsHistorySql(db, items) <==> HistoryCut(db) == ToSet(items))
    ensures CutIsHistorySql(db, items) && HistoryCut(db) == ToSet(items) ==> Distinct(items)
  {
    DistinctCardinality(db.order);
    DistinctByCount(items);
    if Distinct(items) && CutIsHistorySql(db, items) {
      assert ToSet(db.order) <= ToSet(items);
      SubsetByCount(ToSet(db.order), ToSet(items));
      assert ToSet(db.order) * ToSet(items) == ToSet(db.order);
    }
    if Distinct(items) && HistoryCut(db) == ToSet(items) {
      forall h | h in db.order ensures h in items {
        assert h in ToSet(items);
      }
    }
  }

  // --- the RPC ---

  datatype RpcError =
    | MalformedHash
    | EmptyCanon
    | MalformedHashArray
    | NoRules
    | OwnParent
    | AdvancedHistory
    | UnknownIdentity
    | UnknownContext
    | UnknownPayload
    | UnknownParent
    | UnknownRegistryCut
    | UnknownAuthChain
    | CommandTypeUnregistered
    | ActTypeUnregistered
    | RuleUnregistered
    | ActCollision
    | NoCommandType
    | SecondConsequence

  datatype RpcArgs = RpcArgs(
    actHash: Text, canon: Blob, actType: string, commandType: string, identityHash: Text,
    parents: seq<Text>, decisionCut: seq<Text>, commandHash: Text, authChain: seq<Text>,
    registryCut: seq<Text>, ruleHashes: seq<Text>, contextHash: Text, payloadHash: Text,
    claimedWhen: Option<Text>)

  function RowToAct(a: RpcArgs): Act {
    Act(a.actHash, a.actType, a.identityHash, a.parents, ToSet(a.decisionCut), a.commandHash, a.authChain,
        ToSet(a.registryCut), a.ruleHashes, a.contextHash, a.payloadHash, a.claimedWhen)
  }

  predicate RegisteredByName(db: Ledger, kind: string, name: Text, cut: seq<Text>) {
    exists e | e in db.registry :: e.kind == kind && e.name == name && e.bornAt in cut
  }

  predicate RegisteredByHash(db: Ledger, kind: string, hash: Text, cut: seq<Text>) {
    exists e | e in db.registry :: e.kind == kind && e.hash == hash && e.bornAt in cut
  }

  predicate SomeUnknown(db: Ledger, items: seq<Text>) {
    exists h :: h in items && h !in db.acts
  }

  /** The rows the partial unique index covers: it names the Act types it leaves out, and they are the kernel's
      lifecycle stages. */
  predicate IsIndexed(actType: string): (indexed: bool)
    ensures indexed <==> !IsLifecycle(actType)
  {
    && actType != "CommandSubmitted" && actType != "CommandValidated" && actType != "CommandRejected"
    && actType != "AuthorizationRequested" && actType != "CommandDenied" && actType != "ReviewRequested"
    && actType != "AuthorizationReviewed" && actType != "AuthorizationResolved"
    && actType != "CommandSuperseded" && actType != "CommandExpired"
  }

  /** The row the partial unique index on consequence would clash with. */
  predicate ConsequenceIndexHolds(db: Ledger, commandHash: Text) {
    exists h | h in db.order :: h in db.acts && db.acts[h].commandHash == commandHash && IsIndexed(db.acts[h].actType)
  }

  /** The first check of the RPC, of the insert trigger or of the index that refuses the row. */
  function RpcRefusal(db: Ledger, a: RpcArgs): Option<RpcError> {
    if !IsHash(a.actHash) || !IsHash(a.commandHash) || !IsHash(a.identityHash) || !IsHash(a.contextHash)
       || !IsHash(a.payloadHash) then Some(MalformedHash)
    else if a.canon.Foreign? && a.canon.raw == [] then Some(EmptyCanon)
    else if !IsHashArray(a.parents) || !IsHashArray(a.decisionCut) || !IsHashArray(a.authChain)
            || !IsHashArray(a.registryCut) || !IsHashArray(a.ruleHashes) then Some(MalformedHashArray)
    else if a.ruleHashes == [] then Some(NoRules)
    else if a.actHash in a.parents then Some(OwnParent)
    else if !CutIsHistorySql(db, a.decisionCut) then Some(AdvancedHistory)
    else if a.identityHash !in db.identities then Some(UnknownIdentity)
    else if a.contextHash !in db.objects then Some(UnknownContext)
    else if a.payloadHash !in db.objects then Some(UnknownPayload)
    else if SomeUnknown(db, a.parents) then Some(UnknownParent)
    else if SomeUnknown(db, a.registryCut) then Some(UnknownRegistryCut)
    else if SomeUnknown(db, a.authChain) then Some(UnknownAuthChain)
    else if !RegisteredByName(db, "command_type", Plain(a.commandType), a.registryCut)
    then Some(CommandTypeUnregistered)
    else if !RegisteredByName(db, "act_type", Plain(a.actType), a.registryCut) then Some(ActTypeUnregistered)
    else if exists r :: r in a.ruleHashes && !RegisteredByHash(db, "rule", r, a.registryCut) then Some(RuleUnregistered)
    else if a.actHash in db.objects && db.objects[a.actHash] != Record(a.canon, "act") then Some(ActCollision)
    else if a.commandType == "" then Some(NoCommandType)
    else if IsIndexed(a.actType) && ConsequenceIndexHolds(db, a.commandHash) then Some(SecondConsequence)
    else None
  }

  /** commit_act, which runs alone under the advisory lock; an exception undoes everything. */
  function CommitActRpc(db: Ledger, a: RpcArgs): (Ledger, Result<Act, RpcError>) {
    if a.actHash in db.acts then (db, Ok(db.acts[a.actHash]))
    else
      match RpcRefusal(db, a)
      case Some(refusal) => (db, Err(refusal))
      case None => (Append(db, RowToAct(a), a.canon), Ok(RowToAct(a)))
  }

  lemma RpcChecks(db: Ledger, a: RpcArgs)
    requires WellFormed(db) && RpcRefusal(db, a).None?
    ensures Distinct(a.decisionCut) && ToSet(a.decisionCut) == HistoryCut(db)
    ensures Distinct(a.registryCut)
    ensures a.actHash in db.objects ==> db.objects[a.actHash] == Record(a.canon, "act")
    ensures !IsLifecycle(a.actType) ==> !ConsequenceIndexHolds(db, a.commandHash)
    ensures forall p | p in a.parents :: p in db.acts
  {
    DistinctByCount(a.decisionCut);
    DistinctByCount(a.registryCut);
    CutFormsAgree(db, a.decisionCut);
  }

  lemma AppendKeepsSingle(db: Ledger, act: Act, canon: Blob)
    requires WellFormed(db) && SingleConsequence(db) && act.hash !in db.acts
    requires act.hash in db.objects ==> db.objects[act.hash] == Record(canon, "act")
    requires !IsLifecycle(act.actType) ==> !ConsequenceIndexHolds(db, act.commandHash)
    ensures var db' := Append(db, act, canon);
            WellFormed(db') && SingleConsequence(db') && Extends(db, db')
  {
    PlacementWellFormed(db, Append(db, act, canon), act);
    forall h | h in db.acts ensures h in db.order {
      assert h in ToSet(db.order);
    }
  }

  /** Whoever calls the RPC, and whatever they pass, the index keeps consequence single, the row's cut is the
      history it extends, the row links only what is in it, and nothing already recorded changes. */
  lemma RpcKeepsLedger(db: Ledger, a: RpcArgs)
    requires WellFormed(db) && SingleConsequence(db)
    ensures var (db', r) := CommitActRpc(db, a);
            && WellFormed(db') && SingleConsequence(db') && Extends(db, db')
            && (r.Err? ==> db' == db)
            && (a.actHash in db.acts ==> db' == db && r == Ok(db.acts[a.actHash]))
            && (r.Ok? && a.actHash !in db.acts ==>
                  && db'.order == db.order + [a.actHash] && r.value.decisionCut == HistoryCut(db)
                  && forall h | h in a.parents || h in a.registryCut || h in a.authChain :: h in db.acts)
  {
    var refusal := RpcRefusal(db, a);
    if a.actHash !in db.acts && refusal.None? {
      RpcChecks(db, a);
      AppendKeepsSingle(db, RowToAct(a), a.canon);
    }
  }
}

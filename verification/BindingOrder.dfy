/**
 The binding table behind concurrent callers (service/principals.py over ledger/postgres.py): a call
 commits its Act in one transaction and writes its projection in another, and other calls may commit
 and write in between.
 */
module BindingOrder {
  import opened Canon
  import opened Ledgers
  import opened Gate
  import opened History
  import opened Requests
  import opened Authority
  import opened Idempotence
  import opened Principals
  import BindingRuns

  /** A projection that a call still has to write: what its Act does to one principal. */
  datatype Job =
    | Bind(key: Key, identity: Text, act: Text)
    | Unbind(key: Key, act: Text)

  function Written(rows: seq<Row>, job: Job): seq<Row> {
    match job
    case Bind(key, identity, act) => LinkRow(rows, key, identity, act).GetOr(rows)
    case Unbind(key, act) => UnlinkRows(rows, key, act)
  }

  // --- whom a principal is bound to ---

  /** The Identity of the live row of a principal. */
  function LiveOf(rows: seq<Row>, key: Key): Option<Text> {
    if rows == [] then None
    else
      var last := rows[|rows| - 1];
      if last.LiveFor(key) then Some(last.identityHash) else LiveOf(rows[..|rows| - 1], key)
  }

  function Get(bindings: map<Key, Text>, key: Key): Option<Text> {
    if key in bindings then Some(bindings[key]) else None
  }

  /** The Identity a principal has after these jobs, done one after the other. */
  function Owner(start: Option<Text>, jobs: seq<Job>, key: Key): Option<Text> {
    if jobs == [] then start
    else
      var last := jobs[|jobs| - 1];
      if last.key == key then (if last.Bind? then Some(last.identity) else None)
      else Owner(start, jobs[..|jobs| - 1], key)
  }

  lemma {:induction false} LiveRow(rows: seq<Row>, key: Key)
    ensures LiveOf(rows, key).None? <==> forall row | row in rows :: !row.LiveFor(key)
    ensures LiveOf(rows, key).Some? ==>
              exists row | row in rows :: row.LiveFor(key) && row.identityHash == LiveOf(rows, key).value
  {
    if rows != [] {
      var init, last := rows[..|rows| - 1], rows[|rows| - 1];
      LiveRow(init, key);
      assert rows == init + [last];
      assert last in rows;
    }
  }

  lemma TheLiveRow(rows: seq<Row>, row: Row)
    requires SingleLive(rows) && row in rows && row.unlinkedAct.None?
    ensures LiveOf(rows, (row.issuer, row.subject)) == Some(row.identityHash)
  {
    var key := (row.issuer, row.subject);
    LiveRow(rows, key);
    assert row.LiveFor(key);
    var other :| other in rows && other.LiveFor(key) && other.identityHash == LiveOf(rows, key).value;
    var i :| 0 <= i < |rows| && rows[i] == row;
    var j :| 0 <= j < |rows| && rows[j] == other;
    assert i == j;
  }

  /** A map shows a table exactly when they agree on every principal. */
  lemma ShowsEach(rows: seq<Row>, bindings: map<Key, Text>)
    requires SingleLive(rows)
    ensures Shows(rows, bindings) <==> forall key :: LiveOf(rows, key) == Get(bindings, key)
  {
    if Shows(rows, bindings) {
      forall key ensures LiveOf(rows, key) == Get(bindings, key) {
        LiveRow(rows, key);
        if key in bindings {
          var row :| row in rows && row.LiveFor(key);
          TheLiveRow(rows, row);
        }
      }
    }
    if forall key :: LiveOf(rows, key) == Get(bindings, key) {
      forall row | row in rows && row.unlinkedAct.None?
        ensures (row.issuer, row.subject) in bindings && bindings[(row.issuer, row.subject)] == row.identityHash
      {
        TheLiveRow(rows, row);
        assert LiveOf(rows, (row.issuer, row.subject)) == Get(bindings, (row.issuer, row.subject));
      }
      forall key | key in bindings ensures exists row | row in rows :: row.LiveFor(key) {
        LiveRow(rows, key);
        assert LiveOf(rows, key) == Get(bindings, key);
      }
    }
  }

  lemma {:induction false} LiveUnlinked(rows: seq<Row>, key: Key, act: Text, other: Key)
    ensures LiveOf(UnlinkRows(rows, key, act), other) == if other == key then None else LiveOf(rows, other)
  {
    if rows != [] {
      var n := |rows| - 1;
      LiveUnlinked(rows[..n], key, act, other);
      assert UnlinkRows(rows, key, act)[..n] == UnlinkRows(rows[..n], key, act);
    }
  }

  lemma LiveLinked(rows: seq<Row>, key: Key, identity: Text, act: Text, other: Key)
    requires LiveOf(rows, key) == None || LiveOf(rows, key) == Some(identity)
    requires forall row | row in rows :: row.linkedAct != act
    ensures LiveOf(LinkRow(rows, key, identity, act).GetOr(rows), other) ==
              if other == key then Some(identity) else LiveOf(rows, other)
  {
    LiveRow(rows, key);
    var row := Row(key.0, key.1, identity, act, None);
    if LiveOf(rows, key).None? {
      assert (rows + [row])[..|rows|] == rows;
    }
  }

  lemma LinkKeepsSingle(rows: seq<Row>, key: Key, identity: Text, act: Text)
    requires SingleLive(rows)
    ensures SingleLive(LinkRow(rows, key, identity, act).GetOr(rows))
  {
    assert forall i | 0 <= i < |rows| :: rows[i] in rows;
  }

  /** What one write does, when its job comes in its turn. */
  lemma WriteEffect(rows: seq<Row>, job: Job, start: Option<Text>, other: Key)
    requires SingleLive(rows) && forall row | row in rows :: row.linkedAct != job.act
    requires job.Bind? ==> LiveOf(rows, job.key) == None || LiveOf(rows, job.key) == Some(job.identity)
    ensures SingleLive(Written(rows, job))
    ensures LiveOf(Written(rows, job), other) == Owner(LiveOf(rows, other), [job], other)
  {
    assert [job][..0] == [];
    match job
    case Bind(key, identity, act) =>
      LinkKeepsSingle(rows, key, identity, act);
      LiveLinked(rows, key, identity, act, other);
    case Unbind(key, act) =>
      LiveUnlinked(rows, key, act, other);
      BindingRuns.SingleLiveUnlink(rows, key, act);
  }

  // --- the jobs of one principal ---

  function Of(jobs: seq<Job>, key: Key): seq<Job> {
    if jobs == [] then []
    else Of(jobs[..|jobs| - 1], key) + if jobs[|jobs| - 1].key == key then [jobs[|jobs| - 1]] else []
  }

  lemma {:induction false} OfAppend(a: seq<Job>, b: seq<Job>, key: Key)
    ensures Of(a + b, key) == Of(a, key) + Of(b, key)
  {
    if b == [] {
      assert a + b == a;
    } else {
      OfAppend(a, b[..|b| - 1], key);
      assert (a + b)[..|a + b| - 1] == a + b[..|b| - 1];
    }
  }

  lemma OfOne(job: Job, key: Key)
    ensures Of([job], key) == if job.key == key then [job] else []
  {
    assert [job][..0] == [] && Of([], key) == [];
  }

  lemma {:induction false} NoneOf(jobs: seq<Job>, key: Key)
    requires forall k | 0 <= k < |jobs| :: jobs[k].key != key
    ensures Of(jobs, key) == []
  {
    if jobs != [] {
      NoneOf(jobs[..|jobs| - 1], key);
    }
  }

  /** Whom a principal belongs to depends on its own jobs alone. */
  lemma {:induction false} OwnerOf(start: Option<Text>, jobs: seq<Job>, key: Key)
    ensures Owner(start, jobs, key) == Owner(start, Of(jobs, key), key)
  {
    if jobs != [] {
      var init, last := jobs[..|jobs| - 1], jobs[|jobs| - 1];
      OwnerOf(start, init, key);
      if last.key == key {
        assert Of(jobs, key) == Of(init, key) + [last];
        OwnerNext(start, Of(init, key), last, key);
      } else {
        assert Of(jobs, key) == Of(init, key);
      }
    }
  }

  lemma OwnerNext(start: Option<Text>, jobs: seq<Job>, job: Job, key: Key)
    ensures Owner(start, jobs + [job], key) ==
              if job.key != key then Owner(start, jobs, key) else if job.Bind? then Some(job.identity) else None
  {
    assert (jobs + [job])[..|jobs|] == jobs;
  }

  lemma OwnerOne(start: Option<Text>, job: Job, key: Key)
    ensures Owner(start, [job], key) ==
              if job.key != key then start else if job.Bind? then Some(job.identity) else None
  {
    assert [] + [job] == [job];
    OwnerNext(start, [], job, key);
  }

  function Without(jobs: seq<Job>, i: nat): seq<Job>
    requires i < |jobs|
  {
    jobs[..i] + jobs[i + 1..]
  }

  /** Taking the first job of a principal leaves its other jobs, and everybody else's, in order. */
  lemma FirstTaken(jobs: seq<Job>, i: nat, key: Key)
    requires i < |jobs| && forall k | 0 <= k < i :: jobs[k].key != jobs[i].key
    ensures Of(jobs, key) == (if jobs[i].key == key then [jobs[i]] else []) + Of(Without(jobs, i), key)
  {
    assert jobs == jobs[..i] + ([jobs[i]] + jobs[i + 1..]);
    OfAppend(jobs[..i], [jobs[i]] + jobs[i + 1..], key);
    OfAppend([jobs[i]], jobs[i + 1..], key);
    OfAppend(jobs[..i], jobs[i + 1..], key);
    OfOne(jobs[i], key);
    if jobs[i].key == key {
      NoneOf(jobs[..i], key);
    }
  }

  lemma {:induction false} OwnerAppend(start: Option<Text>, a: seq<Job>, b: seq<Job>, key: Key)
    ensures Owner(start, a + b, key) == Owner(Owner(start, a, key), b, key)
  {
    if b == [] {
      assert a + b == a;
    } else {
      OwnerAppend(start, a, b[..|b| - 1], key);
      assert (a + b)[..|a + b| - 1] == a + b[..|b| - 1];
    }
  }

  // --- the run ---

  /** The ledger, the rows of the table, and the projections still to be written, in the order of their
      commits. */
  datatype World = World(ledger: Ledger, rows: seq<Row>, pending: seq<Job>)

  datatype Move =
    | LinkCommit(r: ActionRequest, p: Option<Principal>)
    | RevokeCommit(r: ActionRequest, p: Option<Principal>)
    | Write(i: nat)
    | OtherStep(step: Step)

  /** What the table says of all principals: the bindings a request is resolved by. */
  function Resolved(rows: seq<Row>): map<Key, Text> {
    map row | row in rows && row.unlinkedAct.None? ::
      (row.issuer, row.subject) := LiveOf(rows, (row.issuer, row.subject)).GetOr(Plain(""))
  }

  function View(w: World): Ledger {
    w.ledger.(bindings := Resolved(w.rows))
  }

  /** The transaction of a call that commits: history grows, and a projection is left to be written. */
  function Committed(v: Service, w: World, r: ActionRequest, p: Option<Principal>): World
    requires IsLink(r) || IsRevoke(r)
  {
    var (t, result) := Authority.Commit(v, View(w), r, p);
    World(t, w.rows,
          if result.Err? then w.pending
          else w.pending + [if IsLink(r) then Bind(TargetOf(r), LinkedIdentity(r), result.value.1.hash)
                            else Unbind(TargetOf(r), result.value.1.hash)])
  }

  function Next(v: Service, w: World, move: Move): World {
    match move
    case LinkCommit(r, p) => if IsLink(r) then Committed(v, w, r, p) else w
    case RevokeCommit(r, p) => if IsRevoke(r) then Committed(v, w, r, p) else w
    case Write(i) =>
      if i >= |w.pending| then w else World(w.ledger, Written(w.rows, w.pending[i]), Without(w.pending, i))
    case OtherStep(step) => World(Apply(v.ed, w.ledger, step), w.rows, w.pending)
  }

  /** Calls are no replays, and links go to principals that history does not bind to anybody else; each
      principal's projections are written in the order of their commits; nobody else links or revokes. */
  predicate Orderly(v: Service, w: World, move: Move, n: nat, base: map<Key, Text>)
    requires WellFormed(w.ledger) && n <= |w.ledger.order|
  {
    match move
    case LinkCommit(r, p) =>
      IsLink(r) && Authority.Commit(v, View(w), r, p).1.Ok? ==>
        && !AlreadySettled(w.ledger, r)
        && var owner := Get(ProjectedBindings(w.ledger, n, base), TargetOf(r));
        owner == None || owner == Some(LinkedIdentity(r))
    case RevokeCommit(r, p) => IsRevoke(r) && Authority.Commit(v, View(w), r, p).1.Ok? ==> !AlreadySettled(w.ledger, r)
    case Write(i) => i < |w.pending| ==> forall k | 0 <= k < i :: w.pending[k].key != w.pending[i].key
    case OtherStep(Submit(q)) => q.actType != "PrincipalLinked" && q.actType != "PrincipalRevoked"
    case OtherStep(_) => true
  }

  /** Every link among these jobs finds its principal unbound, or bound to that Identity already. */
  predicate CleanFrom(start: Option<Text>, jobs: seq<Job>, key: Key) {
    forall i | 0 <= i < |jobs| && jobs[i].Bind? ::
      Owner(start, jobs[..i], key) == None || Owner(start, jobs[..i], key) == Some(jobs[i].identity)
  }

  /** What the table shows of a principal, and the jobs still pending for it, make up its history. */
  ghost predicate InTurn(w: World, n: nat, base: map<Key, Text>, key: Key)
    requires WellFormed(w.ledger) && n <= |w.ledger.order|
  {
    && Owner(LiveOf(w.rows, key), w.pending, key) == Get(ProjectedBindings(w.ledger, n, base), key)
    && CleanFrom(LiveOf(w.rows, key), Of(w.pending, key), key)
  }

  ghost predicate Sound(w: World, n: nat, base: map<Key, Text>) {
    && Lawful(w.ledger, n) && SingleLive(w.rows)
    && (forall key :: InTurn(w, n, base, key))
    && (forall row | row in w.rows :: row.linkedAct in w.ledger.acts)
    && (forall i | 0 <= i < |w.pending| :: w.pending[i].act in w.ledger.acts)
    && (forall i, row | 0 <= i < |w.pending| && row in w.rows :: row.linkedAct != w.pending[i].act)
    && (forall i, j | 0 <= i < j < |w.pending| :: w.pending[i].act != w.pending[j].act)
  }

  // --- every orderly move keeps the table in turn ---

  lemma CleanAppend(start: Option<Text>, jobs: seq<Job>, job: Job, key: Key)
    requires CleanFrom(start, jobs, key)
    requires job.Bind? ==> Owner(start, jobs, key) == None || Owner(start, jobs, key) == Some(job.identity)
    ensures CleanFrom(start, jobs + [job], key)
  {
    var all := jobs + [job];
    forall i | 0 <= i < |all| && all[i].Bind?
      ensures Owner(start, all[..i], key) == None || Owner(start, all[..i], key) == Some(all[i].identity)
    {
      assert all[..i] == jobs[..i];
      assert i == |jobs| ==> jobs[..i] == jobs;
    }
  }

  lemma CleanRest(start: Option<Text>, job: Job, rest: seq<Job>, key: Key)
    requires CleanFrom(start, [job] + rest, key)
    ensures CleanFrom(Owner(start, [job], key), rest, key)
    ensures job.Bind? ==> start == None || start == Some(job.identity)
  {
    var all := [job] + rest;
    assert all[..0] == [] && Owner(start, all[..0], key) == start;
    forall i | 0 <= i < |rest| && rest[i].Bind?
      ensures Owner(Owner(start, [job], key), rest[..i], key) == None
           || Owner(Owner(start, [job], key), rest[..i], key) == Some(rest[i].identity)
    {
      OwnerAppend(start, [job], rest[..i], key);
      assert all[..i + 1] == [job] + rest[..i] && all[i + 1] == rest[i];
    }
  }

  /** The projection of history gains what the job does. */
  predicate Gains(before: map<Key, Text>, after: map<Key, Text>, job: Job) {
    match job
    case Bind(key, identity, _) => after == before[key := identity] && Get(before, key) in {None, Some(identity)}
    case Unbind(key, _) => after == before - {key}
  }

  lemma AddedInTurn(w: World, t: Ledger, job: Job, n: nat, base: map<Key, Text>, key: Key)
    requires WellFormed(w.ledger) && n <= |w.ledger.order| && InTurn(w, n, base, key)
    requires WellFormed(t) && n <= |t.order|
    requires Gains(ProjectedBindings(w.ledger, n, base), ProjectedBindings(t, n, base), job)
    ensures InTurn(World(t, w.rows, w.pending + [job]), n, base, key)
  {
    hide ProjectedBindings, CleanFrom, WellFormed, LiveOf;
    var start, all := LiveOf(w.rows, key), w.pending + [job];
    OwnerNext(start, w.pending, job, key);
    OfAppend(w.pending, [job], key);
    OfOne(job, key);
    OwnerOf(start, w.pending, key);
    if job.key == key {
      CleanAppend(start, Of(w.pending, key), job, key);
      assert Of(all, key) == Of(w.pending, key) + [job];
    } else {
      assert Of(all, key) == Of(w.pending, key);
    }
  }

  /** One more job, as the projection of history gains the same. */
  lemma JobAdded(w: World, t: Ledger, job: Job, n: nat, base: map<Key, Text>)
    requires Sound(w, n, base) && Lawful(t, n) && Extends(w.ledger, t)
    requires job.act !in w.ledger.acts && job.act in t.acts
    requires WellFormed(w.ledger) && WellFormed(t) && n <= |w.ledger.order| && n <= |t.order|
    requires Gains(ProjectedBindings(w.ledger, n, base), ProjectedBindings(t, n, base), job)
    ensures Sound(World(t, w.rows, w.pending + [job]), n, base)
  {
    hide Lawful, ProjectedBindings, SingleLive, InTurn, Gains, WellFormed;
    forall key ensures InTurn(World(t, w.rows, w.pending + [job]), n, base, key) {
      AddedInTurn(w, t, job, n, base, key);
    }
  }

  lemma LawfulStarts(s: Ledger, n: nat)
    requires Lawful(s, n)
    ensures WellFormed(s) && n <= |s.order|
  {
  }

  /** Nothing to write, and nothing that history projects. */
  lemma NothingAdded(w: World, t: Ledger, n: nat, base: map<Key, Text>)
    requires Sound(w, n, base) && Lawful(t, n) && w.ledger.acts.Keys <= t.acts.Keys
    requires ProjectedBindings(t, n, base) == ProjectedBindings(w.ledger, n, base)
    ensures Sound(World(t, w.rows, w.pending), n, base)
  {
    hide Lawful, ProjectedBindings, SingleLive, CleanFrom;
    LawfulStarts(t, n);
    LawfulStarts(w.ledger, n);
    forall key ensures InTurn(World(t, w.rows, w.pending), n, base, key) {
      assert InTurn(w, n, base, key);
    }
  }

  lemma RowsWritten(rows: seq<Row>, job: Job, row: Row)
    requires row in Written(rows, job)
    ensures row.linkedAct == job.act || exists earlier | earlier in rows :: earlier.linkedAct == row.linkedAct
  {
    if job.Unbind? {
      var i :| 0 <= i < |rows| && UnlinkRows(rows, job.key, job.act)[i] == row;
      assert rows[i] in rows;
    }
  }

  lemma WrittenInTurn(w: World, i: nat, n: nat, base: map<Key, Text>, key: Key)
    requires Sound(w, n, base) && i < |w.pending| && forall k | 0 <= k < i :: w.pending[k].key != w.pending[i].key
    ensures InTurn(World(w.ledger, Written(w.rows, w.pending[i]), Without(w.pending, i)), n, base, key)
    ensures SingleLive(Written(w.rows, w.pending[i]))
  {
    hide Lawful, ProjectedBindings, SingleLive, Written, CleanFrom;
    var job, rest, start := w.pending[i], Of(Without(w.pending, i), key), LiveOf(w.rows, key);
    LawfulStarts(w.ledger, n);
    assert InTurn(w, n, base, key) && InTurn(w, n, base, job.key);
    FirstTaken(w.pending, i, key);
    FirstTaken(w.pending, i, job.key);
    CleanRest(LiveOf(w.rows, job.key), job, Of(Without(w.pending, i), job.key), job.key);
    WriteEffect(w.rows, job, start, key);
    OwnerOf(start, w.pending, key);
    OwnerOf(LiveOf(Written(w.rows, job), key), Without(w.pending, i), key);
    OwnerOne(start, job, key);
    if job.key == key {
      OwnerAppend(start, [job], rest, key);
    } else {
      assert [] + rest == rest;
    }
  }

  lemma JobWritten(w: World, i: nat, n: nat, base: map<Key, Text>)
    requires Sound(w, n, base) && i < |w.pending| && forall k | 0 <= k < i :: w.pending[k].key != w.pending[i].key
    ensures Sound(World(w.ledger, Written(w.rows, w.pending[i]), Without(w.pending, i)), n, base)
  {
    hide Lawful, ProjectedBindings, SingleLive, Written, InTurn;
    var job, rest := w.pending[i], Without(w.pending, i);
    LawfulStarts(w.ledger, n);
    forall key ensures InTurn(World(w.ledger, Written(w.rows, job), rest), n, base, key) {
      WrittenInTurn(w, i, n, base, key);
    }
    WrittenInTurn(w, i, n, base, job.key);
    forall k | 0 <= k < |rest| ensures rest[k] == w.pending[if k < i then k else k + 1] {
    }
    forall row | row in Written(w.rows, job)
      ensures row.linkedAct in w.ledger.acts
      ensures forall k | 0 <= k < |rest| :: row.linkedAct != rest[k].act
    {
      RowsWritten(w.rows, job, row);
    }
  }

  lemma CommittedInTurn(v: Service, w: World, r: ActionRequest, p: Option<Principal>, n: nat, base: map<Key, Text>)
    requires Sound(w, n, base) && (IsLink(r) || IsRevoke(r))
    requires Authority.Commit(v, View(w), r, p).1.Ok? ==> !AlreadySettled(w.ledger, r)
    requires Authority.Commit(v, View(w), r, p).1.Ok? && IsLink(r) ==>
               var owner := Get(ProjectedBindings(w.ledger, n, base), TargetOf(r));
               owner == None || owner == Some(LinkedIdentity(r))
    ensures Sound(Committed(v, w, r, p), n, base)
  {
    hide Lawful, ProjectedBindings, Sound, Authority.Commit, IsLink, IsRevoke, TargetOf, LinkedIdentity, AlreadySettled;
    var s := View(w);
    SoundStarts(w, n, base);
    BindingRuns.Rebound(w.ledger, s, n, base);
    var t, result := Authority.Commit(v, s, r, p).0, Authority.Commit(v, s, r, p).1;
    if result.Ok? {
      BindingRuns.FreshOrSettled(v, s, r, p, n);
      SameSettled(w.ledger, s, r);
      BindingRuns.FreshEffect(v, s, r, p, n, base);
      BindingRuns.NotBoth(r);
      var job := if IsLink(r) then Bind(TargetOf(r), LinkedIdentity(r), result.value.1.hash)
                 else Unbind(TargetOf(r), result.value.1.hash);
      LawfulStarts(w.ledger, n);
      LawfulStarts(t, n);
      JobAdded(w, t, job, n, base);
    } else {
      RefusedQuietly(v, s, r, p, n, base);
      NothingAdded(w, t, n, base);
    }
  }

  lemma SoundStarts(w: World, n: nat, base: map<Key, Text>)
    requires Sound(w, n, base)
    ensures Lawful(w.ledger, n)
  {
  }

  lemma SameSettled(s: Ledger, t: Ledger, r: ActionRequest)
    requires t.acts == s.acts && t.order == s.order
    ensures AlreadySettled(t, r) == AlreadySettled(s, r)
  {
  }

  lemma RefusedQuietly(v: Service, s: Ledger, r: ActionRequest, p: Option<Principal>, n: nat, base: map<Key, Text>)
    requires Lawful(s, n) && Authority.Commit(v, s, r, p).1.Err?
    ensures var t := Authority.Commit(v, s, r, p).0;
            Lawful(t, n) && t.acts == s.acts && ProjectedBindings(t, n, base) == ProjectedBindings(s, n, base)
  {
    hide Lawful, ProjectedBindings, Authority.Commit;
    LawfulStarts(s, n);
    BindingRuns.CommitKeepsLaw(v, s, r, p, n);
    LawfulStarts(Authority.Commit(v, s, r, p).0, n);
    RefusalLeavesHistory(v, s, r, p);
    ProjectionStable(s, Authority.Commit(v, s, r, p).0, n, base);
  }

  lemma OtherQuietly(v: Service, s: Ledger, step: Step, n: nat, base: map<Key, Text>)
    requires Lawful(s, n)
    requires step.Submit? ==> step.q.actType != "PrincipalLinked" && step.q.actType != "PrincipalRevoked"
    ensures var t := Apply(v.ed, s, step);
            Lawful(t, n) && Extends(s, t) && ProjectedBindings(t, n, base) == ProjectedBindings(s, n, base)
  {
    hide Gate.Commit, ProjectedBindings, CanonicalValue, Justified;
    var t := Apply(v.ed, s, step);
    StepLawful(v.ed, s, step, n);
    if step.Submit? {
      CommitEffect(v.ed, s, step.q);
    }
    if t.order == s.order {
      assert t.acts == s.acts;
      ProjectionStable(s, t, n, base);
    } else {
      var act := ActOf(step.q);
      ProjectionExtends(s, t, n, base, act);
      assert BindingEffect(t.objects, ProjectedBindings(s, n, base), act) == ProjectedBindings(s, n, base);
    }
  }

  lemma MoveInTurn(v: Service, w: World, move: Move, n: nat, base: map<Key, Text>)
    requires WellFormed(w.ledger) && n <= |w.ledger.order| && Sound(w, n, base) && Orderly(v, w, move, n, base)
    ensures Sound(Next(v, w, move), n, base)
  {
    hide Lawful, ProjectedBindings, Sound, Authority.Commit, IsLink, IsRevoke, TargetOf, LinkedIdentity, AlreadySettled;
    hide Committed, Written, Apply;
    match move
    case LinkCommit(r, p) =>
      if IsLink(r) {
        CommittedInTurn(v, w, r, p, n, base);
      }
    case RevokeCommit(r, p) =>
      if IsRevoke(r) {
        BindingRuns.NotBoth(r);
        CommittedInTurn(v, w, r, p, n, base);
      }
    case Write(i) =>
      if i < |w.pending| {
        JobWritten(w, i, n, base);
      }
    case OtherStep(step) =>
      SoundStarts(w, n, base);
      OtherQuietly(v, w.ledger, step, n, base);
      NothingAdded(w, Apply(v.ed, w.ledger, step), n, base);
  }

  function Run(v: Service, w0: World, moves: seq<Move>): World {
    if moves == [] then w0 else Next(v, Run(v, w0, moves[..|moves| - 1]), moves[|moves| - 1])
  }

  /** Every move is orderly where it is made. */
  predicate IsOrderlyRun(v: Service, w0: World, moves: seq<Move>, n: nat, base: map<Key, Text>) {
    forall k | 0 <= k < |moves| ::
      var w := Run(v, w0, moves[..k]);
      WellFormed(w.ledger) && n <= |w.ledger.order| && Orderly(v, w, moves[k], n, base)
  }

  lemma {:induction false} OrderlyRunSound(v: Service, w0: World, moves: seq<Move>, n: nat, base: map<Key, Text>)
    requires Sound(w0, n, base) && IsOrderlyRun(v, w0, moves, n, base)
    ensures Sound(Run(v, w0, moves), n, base)
  {
    hide Sound, Orderly, Next, WellFormed;
    if moves != [] {
      var k := |moves| - 1;
      assert IsOrderlyRun(v, w0, moves[..k], n, base) by {
        forall j | 0 <= j < k
          ensures var w := Run(v, w0, moves[..k][..j]);
                  WellFormed(w.ledger) && n <= |w.ledger.order| && Orderly(v, w, moves[..k][j], n, base)
        {
          assert moves[..k][..j] == moves[..j] && moves[..k][j] == moves[j];
        }
      }
      OrderlyRunSound(v, w0, moves[..k], n, base);
      MoveInTurn(v, Run(v, w0, moves[..k]), moves[k], n, base);
    }
  }

  /** However calls overlap: as long as each principal's projections are written in the order of their
      Acts, no principal ever has two live rows, every principal without a projection still to come
      resolves exactly as history has it, and once all are written the table shows history. */
  lemma OrderedWritesAgree(v: Service, w0: World, moves: seq<Move>, n: nat, base: map<Key, Text>, key: Key)
    requires Sound(w0, n, base) && IsOrderlyRun(v, w0, moves, n, base)
    ensures var w := Run(v, w0, moves);
            && Lawful(w.ledger, n) && SingleLive(w.rows)
            && (Of(w.pending, key) == [] ==> LiveOf(w.rows, key) == Get(ProjectedBindings(w.ledger, n, base), key))
            && (w.pending == [] ==> Shows(w.rows, ProjectedBindings(w.ledger, n, base)))
  {
    hide Lawful, ProjectedBindings, Run, IsOrderlyRun, SingleLive, Shows;
    OrderlyRunSound(v, w0, moves, n, base);
    var w := Run(v, w0, moves);
    LawfulStarts(w.ledger, n);
    TurnTaken(w, n, base, key);
    if w.pending == [] {
      forall k ensures LiveOf(w.rows, k) == Get(ProjectedBindings(w.ledger, n, base), k) {
        TurnTaken(w, n, base, k);
      }
      ShowsEach(w.rows, ProjectedBindings(w.ledger, n, base));
    }
  }

  lemma TurnTaken(w: World, n: nat, base: map<Key, Text>, key: Key)
    requires Sound(w, n, base) && WellFormed(w.ledger) && n <= |w.ledger.order|
    ensures Of(w.pending, key) == [] ==> LiveOf(w.rows, key) == Get(ProjectedBindings(w.ledger, n, base), key)
    ensures w.pending == [] ==> Of(w.pending, key) == []
  {
    hide Lawful, ProjectedBindings, SingleLive, CleanFrom;
    assert InTurn(w, n, base, key);
    OwnerOf(LiveOf(w.rows, key), w.pending, key);
  }

  /** A table that shows a ledger's history, with nothing pending, is a start for such runs. */
  lemma StartInTurn(s: Ledger, rows: seq<Row>, n: nat, base: map<Key, Text>)
    requires Lawful(s, n) && SingleLive(rows) && Shows(rows, ProjectedBindings(s, n, base))
    requires forall row | row in rows :: row.linkedAct in s.acts
    ensures Sound(World(s, rows, []), n, base)
  {
    hide Lawful, ProjectedBindings, SingleLive, Shows;
    LawfulStarts(s, n);
    ShowsEach(rows, ProjectedBindings(s, n, base));
    forall key ensures InTurn(World(s, rows, []), n, base, key) {
      assert Of([], key) == [];
    }
  }

  // --- out of turn ---

  /** A revocation overtakes the projection of the link it revokes: the principal ends up live although
      history has unbound it.  In turn, the same two writes agree with history. */
  lemma OvertakenWrites(w: World, n: nat, base: map<Key, Text>, key: Key, identity: Text, a: Text, b: Text)
    requires Sound(w, n, base) && w.pending == [Bind(key, identity, a), Unbind(key, b)] && LiveOf(w.rows, key) == None
    ensures WellFormed(w.ledger) && n <= |w.ledger.order|
    ensures Get(ProjectedBindings(w.ledger, n, base), key) == None
    ensures var rows := Written(Written(w.rows, w.pending[1]), w.pending[0]);
            LiveOf(rows, key) == Some(identity) && !Shows(rows, ProjectedBindings(w.ledger, n, base))
    ensures var rows := Written(Written(w.rows, w.pending[0]), w.pending[1]);
            LiveOf(rows, key) == None && Shows(rows, ProjectedBindings(w.ledger, n, base))
  {
    hide Lawful, ProjectedBindings, SingleLive, Shows, Written, InTurn;
    LawfulStarts(w.ledger, n);
    BothInTurn(w, n, base, key, identity, a, b);
    OutOfTurn(w, key, identity, a, b);
    ShowsEach(Written(Written(w.rows, w.pending[1]), w.pending[0]), ProjectedBindings(w.ledger, n, base));
  }

  lemma BothInTurn(w: World, n: nat, base: map<Key, Text>, key: Key, identity: Text, a: Text, b: Text)
    requires Sound(w, n, base) && w.pending == [Bind(key, identity, a), Unbind(key, b)]
    requires WellFormed(w.ledger) && n <= |w.ledger.order|
    ensures Get(ProjectedBindings(w.ledger, n, base), key) == None
    ensures var rows := Written(Written(w.rows, w.pending[0]), w.pending[1]);
            LiveOf(rows, key) == None && Shows(rows, ProjectedBindings(w.ledger, n, base))
  {
    hide Lawful, ProjectedBindings, SingleLive, Shows, Written, CleanFrom;
    assert InTurn(w, n, base, key);
    JobWritten(w, 0, n, base);
    var w1 := World(w.ledger, Written(w.rows, w.pending[0]), Without(w.pending, 0));
    assert w1.pending == [Unbind(key, b)];
    JobWritten(w1, 0, n, base);
    var w2 := World(w.ledger, Written(w1.rows, w1.pending[0]), Without(w1.pending, 0));
    assert w2.pending == [];
    forall k ensures LiveOf(w2.rows, k) == Get(ProjectedBindings(w.ledger, n, base), k) {
      TurnTaken(w2, n, base, k);
    }
    ShowsEach(w2.rows, ProjectedBindings(w.ledger, n, base));
  }

  lemma OutOfTurn(w: World, key: Key, identity: Text, a: Text, b: Text)
    requires SingleLive(w.rows) && w.pending == [Bind(key, identity, a), Unbind(key, b)] && LiveOf(w.rows, key) == None
    requires forall row | row in w.rows :: row.linkedAct != a
    ensures var rows := Written(Written(w.rows, w.pending[1]), w.pending[0]);
            SingleLive(rows) && LiveOf(rows, key) == Some(identity)
  {
    var rows := UnlinkRows(w.rows, key, b);
    LiveUnlinked(w.rows, key, b, key);
    BindingRuns.SingleLiveUnlink(w.rows, key, b);
    forall row | row in rows ensures row.linkedAct != a {
      RowsWritten(w.rows, Unbind(key, b), row);
    }
    LiveLinked(rows, key, identity, a, key);
    LinkKeepsSingle(rows, key, identity, a);
  }
}

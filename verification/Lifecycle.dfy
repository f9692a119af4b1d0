/**
 The lifecycle of a Command, projected from its Acts (service/lifecycle.py).
 */
module Lifecycle {
  import opened Canon
  import opened Types
  import opened Ledgers
  import opened Gate
  import opened History
  import opened Ancestry
  import opened Review
  import opened Consequence
  import opened Idempotence
  import opened MemoryLedgers

  datatype Status =
    | NotSubmitted
    | Pending
    | PendingReview
    | Terminal(stage: string)
    | Committed

  const TERMINAL: set<string> := {"CommandRejected", "CommandDenied", "CommandSuperseded", "CommandExpired"}

  /** The alphabetically first terminal stage of those recorded. */
  function FirstTerminal(recorded: set<string>): string {
    if "CommandDenied" in recorded then "CommandDenied"
    else if "CommandExpired" in recorded then "CommandExpired"
    else if "CommandRejected" in recorded then "CommandRejected"
    else "CommandSuperseded"
  }

  function StatusOf(recorded: set<string>, committed: bool): Status {
    if committed then Committed
    else if recorded * TERMINAL != {} then Terminal(FirstTerminal(recorded))
    else if "ReviewRequested" in recorded && "AuthorizationResolved" !in recorded then PendingReview
    else if recorded != {} then Pending
    else NotSubmitted
  }

  function Recorded(acts: seq<Act>): set<string> {
    set a | a in acts && IsLifecycle(a.actType) :: a.actType
  }

  function StatusOfActs(acts: seq<Act>): Status {
    StatusOf(Recorded(acts), exists a :: a in acts && !IsLifecycle(a.actType))
  }

  function StatusIn(s: Ledger, command: Text): Status {
    StatusOfActs(ActsForCommand(s, command))
  }

  predicate AlphabeticallyBefore(a: string, b: string) {
    b != "" && (a == "" || a[0] < b[0] || (a[0] == b[0] && AlphabeticallyBefore(a[1..], b[1..])))
  }

  lemma {:induction false} CommonPrefixOrder(common: string, a: string, b: string)
    ensures AlphabeticallyBefore(common + a, common + b) <==> AlphabeticallyBefore(a, b)
  {
    if common == "" {
      assert common + a == a && common + b == b;
    } else {
      assert (common + a)[1..] == common[1..] + a && (common + b)[1..] == common[1..] + b;
      CommonPrefixOrder(common[1..], a, b);
    }
  }

  lemma StageBefore(a: string, b: string)
    requires a != "" && b != "" && a[0] < b[0]
    ensures AlphabeticallyBefore("Command" + a, "Command" + b)
  {
    CommonPrefixOrder("Command", a, b);
  }

  lemma StagesInOrder()
    ensures AlphabeticallyBefore("CommandDenied", "CommandExpired")
    ensures AlphabeticallyBefore("CommandDenied", "CommandRejected")
    ensures AlphabeticallyBefore("CommandDenied", "CommandSuperseded")
    ensures AlphabeticallyBefore("CommandExpired", "CommandRejected")
    ensures AlphabeticallyBefore("CommandExpired", "CommandSuperseded")
    ensures AlphabeticallyBefore("CommandRejected", "CommandSuperseded")
  {
    assert "Command" + "Denied" == "CommandDenied" && "Command" + "Expired" == "CommandExpired";
    assert "Command" + "Rejected" == "CommandRejected" && "Command" + "Superseded" == "CommandSuperseded";
    StageBefore("Denied", "Expired");
    StageBefore("Denied", "Rejected");
    StageBefore("Denied", "Superseded");
    StageBefore("Expired", "Rejected");
    StageBefore("Expired", "Superseded");
    StageBefore("Rejected", "Superseded");
  }

  lemma TerminalStages(t: string)
    ensures t in TERMINAL <==>
      t == "CommandDenied" || t == "CommandExpired" || t == "CommandRejected" || t == "CommandSuperseded"
  {
  }

  lemma FirstTerminalRecorded(recorded: set<string>)
    requires recorded * TERMINAL != {}
    ensures FirstTerminal(recorded) in recorded * TERMINAL
  {
    var t :| t in recorded * TERMINAL;
    TerminalStages(t);
    TerminalStages(FirstTerminal(recorded));
  }

  lemma FirstIsLeastIn(recorded: set<string>, t: string, before: (string, string) -> bool)
    requires t in recorded * TERMINAL
    requires before("CommandDenied", "CommandExpired") && before("CommandDenied", "CommandRejected")
    requires before("CommandDenied", "CommandSuperseded") && before("CommandExpired", "CommandRejected")
    requires before("CommandExpired", "CommandSuperseded") && before("CommandRejected", "CommandSuperseded")
    ensures t == FirstTerminal(recorded) || before(FirstTerminal(recorded), t)
  {
    TerminalStages(t);
  }

  /** The stage shown is recorded, and none recorded comes before it in the alphabet. */
  lemma FirstTerminalIsLeast(recorded: set<string>, t: string)
    requires t in recorded * TERMINAL
    ensures FirstTerminal(recorded) in recorded * TERMINAL
    ensures t == FirstTerminal(recorded) || AlphabeticallyBefore(FirstTerminal(recorded), t)
  {
    FirstTerminalRecorded(recorded);
    StagesInOrder();
    FirstIsLeastIn(recorded, t, (a, b) => AlphabeticallyBefore(a, b));
  }

  // --- what each status says ---

  predicate IsTerminal(a: Act) {
    a.actType == "CommandRejected" || a.actType == "CommandDenied" || a.actType == "CommandSuperseded"
    || a.actType == "CommandExpired"
  }

  predicate IsConsequence(a: Act) {
    !IsLifecycle(a.actType)
  }

  /** The Acts of a Command that each status stands for. */
  ghost predicate Describes(status: Status, acts: seq<Act>) {
    match status
    case Committed => exists a :: a in acts && IsConsequence(a)
    case Terminal(stage) =>
      && (forall a | a in acts :: !IsConsequence(a))
      && (exists a :: a in acts && IsTerminal(a) && a.actType == stage)
      && forall a | a in acts && IsTerminal(a) :: a.actType == stage || AlphabeticallyBefore(stage, a.actType)
    case PendingReview =>
      && (forall a | a in acts :: !IsConsequence(a) && !IsTerminal(a))
      && (exists a :: a in acts && a.actType == "ReviewRequested")
      && forall a | a in acts :: a.actType != "AuthorizationResolved"
    case Pending =>
      && acts != [] && (forall a | a in acts :: !IsConsequence(a) && !IsTerminal(a))
      && ((exists a :: a in acts && a.actType == "ReviewRequested") ==>
            exists a :: a in acts && a.actType == "AuthorizationResolved")
    case NotSubmitted => acts == []
  }

  lemma StageRecorded(acts: seq<Act>, stage: string)
    requires IsLifecycle(stage)
    ensures stage in Recorded(acts) <==> exists a :: a in acts && a.actType == stage
  {
  }

  lemma TerminalRecorded(acts: seq<Act>)
    ensures Recorded(acts) * TERMINAL != {} <==> exists a :: a in acts && IsTerminal(a)
    ensures forall a | a in acts && IsTerminal(a) :: a.actType in Recorded(acts) * TERMINAL
  {
    forall a | a in acts && IsTerminal(a) ensures a.actType in Recorded(acts) * TERMINAL {
      TerminalStages(a.actType);
    }
    if stage :| stage in Recorded(acts) * TERMINAL {
      TerminalStages(stage);
    }
  }

  lemma {:induction false} BeforeOneWay(a: string, b: string)
    requires AlphabeticallyBefore(a, b)
    ensures !AlphabeticallyBefore(b, a)
  {
    if a != "" && a[0] == b[0] {
      BeforeOneWay(a[1..], b[1..]);
    }
  }

  lemma OneDescription(x: Status, y: Status, acts: seq<Act>)
    requires Describes(x, acts) && Describes(y, acts)
    ensures x == y
  {
    hide IsTerminal, IsConsequence;
    if x.Terminal? && y.Terminal? && x != y {
      BeforeOneWay(x.stage, y.stage);
    }
  }

  lemma FirstDescribes(acts: seq<Act>)
    requires exists a :: a in acts && IsTerminal(a)
    requires forall a | a in acts :: !IsConsequence(a)
    ensures Describes(Terminal(FirstTerminal(Recorded(acts))), acts)
  {
    hide IsConsequence, FirstTerminal, IsTerminal, AlphabeticallyBefore;
    var first := FirstTerminal(Recorded(acts));
    TerminalRecorded(acts);
    FirstTerminalRecorded(Recorded(acts));
    FirstIsTerminal(acts, first);
    forall a | a in acts && IsTerminal(a) ensures a.actType == first || AlphabeticallyBefore(first, a.actType) {
      FirstTerminalIsLeast(Recorded(acts), a.actType);
    }
  }

  lemma FirstIsTerminal(acts: seq<Act>, stage: string)
    requires stage in Recorded(acts) * TERMINAL
    ensures exists a :: a in acts && IsTerminal(a) && a.actType == stage
  {
    TerminalStages(stage);
    var a :| a in acts && a.actType == stage;
  }

  lemma StatusShown(acts: seq<Act>)
    ensures Describes(StatusOfActs(acts), acts)
  {
    hide IsTerminal, FirstTerminal, AlphabeticallyBefore;
    TerminalRecorded(acts);
    StageRecorded(acts, "ReviewRequested");
    StageRecorded(acts, "AuthorizationResolved");
    if (exists a :: a in acts && IsTerminal(a)) && forall a | a in acts :: !IsConsequence(a) {
      FirstDescribes(acts);
    }
    if acts != [] && !IsConsequence(acts[0]) {
      assert acts[0].actType in Recorded(acts);
    }
  }

  /** The status shown is the one that describes the Acts of the Command; no other does. */
  lemma StatusExactly(acts: seq<Act>, status: Status)
    ensures StatusOfActs(acts) == status <==> Describes(status, acts)
  {
    hide Describes, StatusOfActs;
    StatusShown(acts);
    if Describes(status, acts) {
      OneDescription(status, StatusOfActs(acts), acts);
    }
  }

  // --- status never regresses ---

  function StageRank(stage: string): nat {
    if stage == "CommandDenied" then 7
    else if stage == "CommandExpired" then 6
    else if stage == "CommandRejected" then 5
    else 4
  }

  /** Where a Command stands: a position that determines its status, and that recording can only raise. */
  function Rank(recorded: set<string>, committed: bool): nat {
    match StatusOf(recorded, committed)
    case NotSubmitted => 0
    case Pending => if "ReviewRequested" in recorded then 3 else 1
    case PendingReview => 2
    case Terminal(stage) => StageRank(stage)
    case Committed => 8
  }

  lemma RankRises(recorded: set<string>, committed: bool, recorded': set<string>, committed': bool)
    requires recorded <= recorded' && (committed ==> committed')
    ensures Rank(recorded, committed) <= Rank(recorded', committed') <= 8
    ensures Rank(recorded, committed) == Rank(recorded', committed')
        ==> StatusOf(recorded, committed) == StatusOf(recorded', committed')
  {
    assert recorded * TERMINAL <= recorded' * TERMINAL;
    if recorded * TERMINAL != {} {
      FirstTerminalRecorded(recorded);
    }
    if recorded' * TERMINAL != {} {
      FirstTerminalRecorded(recorded');
    }
  }

  function Position(s: Ledger, command: Text): nat {
    var acts := ActsForCommand(s, command);
    Rank(Recorded(acts), exists a :: a in acts && !IsLifecycle(a.actType))
  }

  lemma OwnedGrows(s: Ledger, t: Ledger, command: Text, a: Act)
    requires WellFormed(s) && WellFormed(t) && Extends(s, t) && a in ActsForCommand(s, command)
    ensures a in ActsForCommand(t, command)
  {
    OwnedMembers(s.acts, s.order, command, a);
    var h :| h in s.order && h in s.acts && s.acts[h] == a;
    assert h in t.order by {
      var i :| 0 <= i < |s.order| && s.order[i] == h;
      assert t.order[i] == h;
    }
    OwnedMembers(t.acts, t.order, command, a);
  }

  lemma PositionRises(s: Ledger, t: Ledger, command: Text)
    requires WellFormed(s) && WellFormed(t) && Extends(s, t)
    ensures Position(s, command) <= Position(t, command) <= 8
    ensures StatusIn(s, command) != StatusIn(t, command) ==> Position(s, command) < Position(t, command)
  {
    hide ActsForCommand;
    var before, after := ActsForCommand(s, command), ActsForCommand(t, command);
    forall a | a in before ensures a in after {
      OwnedGrows(s, t, command, a);
    }
    RankRises(Recorded(before), exists a :: a in before && !IsLifecycle(a.actType),
              Recorded(after), exists a :: a in after && !IsLifecycle(a.actType));
  }

  /** How many steps of a run change the status of a Command. */
  function StatusChanges(ed: Verifier, s0: Ledger, steps: seq<Step>, command: Text): nat {
    if steps == [] then 0
    else
      var init := steps[..|steps| - 1];
      StatusChanges(ed, s0, init, command)
      + if StatusIn(Execute(ed, s0, init), command) != StatusIn(Execute(ed, s0, steps), command) then 1 else 0
  }

  /** Over every run a Command's position only rises, so its status changes at most eight times. */
  lemma {:induction false} StatusNeverRegresses(ed: Verifier, s0: Ledger, steps: seq<Step>, command: Text)
    requires WellFormed(s0)
    ensures StatusChanges(ed, s0, steps, command) + Position(s0, command)
              <= Position(Execute(ed, s0, steps), command) <= 8
  {
    if steps == [] {
      PositionRises(s0, s0, command);
    } else {
      var init := steps[..|steps| - 1];
      StatusNeverRegresses(ed, s0, init, command);
      RunLawful(ed, s0, init, |s0.order|);
      var s := Execute(ed, s0, init);
      StepLawful(ed, s, steps[|steps| - 1], |s0.order|);
      PositionRises(s, Execute(ed, s0, steps), command);
    }
  }

  /** While a request for review is recorded, no resolution, no terminal stage and no consequence, the Command
      is shown as pending review, and no commit of consequence for it succeeds. */
  lemma PendingReviewBlocks(ed: Verifier, s: Ledger, q: Submission)
    requires WellFormed(s) && SelfNamed(s)
    requires Describes(PendingReview, ActsForCommand(s, CommandHash(q.command))) && !IsLifecycle(q.actType)
    ensures StatusIn(s, CommandHash(q.command)) == PendingReview
    ensures Gate.Commit(ed, s, q).1.Err? && Gate.Commit(ed, s, q).0 == s
  {
    hide Recorded, StatusOf, IsTerminal, SigningValue, CanonicalValue;
    var command := CommandHash(q.command);
    var owned := ActsForCommand(s, command);
    StatusExactly(owned, PendingReview);
    assert ActHash(q) !in s.acts by {
      NotYetPlaced(s, q);
    }
    forall a | a in Linked(s.acts, q.authChain) ensures !IsResolutionOf(a, command) {
      var h := LinkMember(s, q.authChain, a);
      OwnedMembers(s.acts, s.order, command, a);
    }
    assert ProofFlaw(s, q) == Some(UnresolvedReview);
  }

  lemma NotYetPlaced(s: Ledger, q: Submission)
    requires WellFormed(s) && SelfNamed(s) && !IsLifecycle(q.actType)
    requires forall a | a in ActsForCommand(s, CommandHash(q.command)) :: IsLifecycle(a.actType)
    ensures ActHash(q) !in s.acts
  {
    forall h | h in s.acts ensures h != ActHash(q) {
      var a := s.acts[h];
      assert h in ToSet(s.order);
      OwnedMembers(s.acts, s.order, CommandHash(q.command), a);
      if IsActHash(h) && RecordedHash(a) == RecordedHash(ActOf(q)) {
        RecordedHashInjective(a, ActOf(q));
      }
      ActMatchesItsValue(q);
    }
  }

  // --- status ---

  /** The lifecycle Acts of a listing, or its consequential ones, in the order listed. */
  function Only(acts: seq<Act>, lifecycle: bool): (r: seq<Act>)
    ensures forall a :: a in r <==> a in acts && IsLifecycle(a.actType) == lifecycle
  {
    if acts == [] then []
    else
      var last := acts[|acts| - 1];
      assert acts == acts[..|acts| - 1] + [last];
      Only(acts[..|acts| - 1], lifecycle) + if IsLifecycle(last.actType) == lifecycle then [last] else []
  }

  lemma OnlyNext(acts: seq<Act>, i: nat, lifecycle: bool)
    requires i < |acts|
    ensures Only(acts[..i + 1], lifecycle) ==
              Only(acts[..i], lifecycle) + if IsLifecycle(acts[i].actType) == lifecycle then [acts[i]] else []
  {
    assert acts[..i + 1][..i] == acts[..i];
  }

  /** Stages and consequences part a listing, each in the order listed. */
  lemma {:induction false} OnlySplits(a: seq<Act>, b: seq<Act>, lifecycle: bool)
    ensures Only(a + b, lifecycle) == Only(a, lifecycle) + Only(b, lifecycle)
  {
    hide IsLifecycle;
    if b == [] {
      assert a + b == a;
    } else {
      var init, last := b[..|b| - 1], b[|b| - 1];
      OnlySplits(a, init, lifecycle);
      assert (a + b)[..|a + b| - 1] == a + init;
    }
  }

  lemma {:induction false} OnlyParts(acts: seq<Act>)
    ensures |Only(acts, true)| + |Only(acts, false)| == |acts|
  {
    hide IsLifecycle;
    if acts != [] {
      OnlyParts(acts[..|acts| - 1]);
    }
  }

  function FirstHash(acts: seq<Act>): Option<Text> {
    if acts == [] then None else Some(acts[0].hash)
  }

  lemma {:induction false} OnlyDistinct(acts: seq<Act>, lifecycle: bool)
    requires Distinct(acts)
    ensures Distinct(Only(acts, lifecycle))
  {
    if acts != [] {
      var n := |acts| - 1;
      OnlyDistinct(acts[..n], lifecycle);
      assert acts[n] !in acts[..n];
    }
  }

  lemma OnlyOneShown(acts: seq<Act>)
    requires Distinct(acts)
    requires forall a, b | a in acts && b in acts && !IsLifecycle(a.actType) && !IsLifecycle(b.actType) :: a == b
    ensures |Only(acts, false)| <= 1
    ensures forall a | a in acts && !IsLifecycle(a.actType) :: FirstHash(Only(acts, false)) == Some(a.hash)
  {
    var shown := Only(acts, false);
    OnlyDistinct(acts, false);
    assert forall i | 0 <= i < |shown| :: shown[i] in shown;
    forall a | a in acts && !IsLifecycle(a.actType) ensures FirstHash(shown) == Some(a.hash) {
      assert a in shown && shown[0] in shown;
    }
  }

  lemma OwnedConsequencesAgree(s: Ledger, command: Text)
    requires WellFormed(s) && SingleConsequence(s)
    ensures Distinct(ActsForCommand(s, command))
    ensures forall a, b | a in ActsForCommand(s, command) && b in ActsForCommand(s, command)
                       && !IsLifecycle(a.actType) && !IsLifecycle(b.actType) :: a == b
  {
    var acts := ActsForCommand(s, command);
    OwnedInOrder(s.acts, s.order, command);
    assert forall i | 0 <= i < |acts| :: Hashes(acts)[i] == acts[i].hash;
    forall a, b | a in acts && b in acts && !IsLifecycle(a.actType) && !IsLifecycle(b.actType) ensures a == b {
      OwnedMembers(s.acts, s.order, command, a);
      OwnedMembers(s.acts, s.order, command, b);
    }
  }

  /** Where consequence is single, as over every run, the consequential Act shown is the only one the
      Command has, and one is shown exactly when the status is committed. */
  lemma ShownConsequenceIsOnly(s: Ledger, command: Text)
    requires WellFormed(s) && SingleConsequence(s)
    ensures var acts := ActsForCommand(s, command);
            && |Only(acts, false)| <= 1
            && (FirstHash(Only(acts, false)).Some? <==> StatusIn(s, command) == Committed)
            && forall a | a in acts && !IsLifecycle(a.actType) :: FirstHash(Only(acts, false)) == Some(a.hash)
  {
    hide ActsForCommand, SingleConsequence, WellFormed;
    var acts := ActsForCommand(s, command);
    OwnedConsequencesAgree(s, command);
    OnlyOneShown(acts);
    assert Only(acts, false) != [] ==> Only(acts, false)[0] in acts;
  }

  // --- trajectory ---

  predicate IsOwned(owned: seq<Act>, h: Text) {
    exists o :: o in owned && o.hash == h
  }

  /** An Act another Command owns, linked by an Act this Command owns. */
  predicate Participates(acts: map<Text, Act>, owned: seq<Act>, a: Act) {
    && a.hash in acts && acts[a.hash] == a
    && !IsOwned(owned, a.hash)
    && exists o :: o in owned && a.hash in o.authChain
  }

  /** A dictionary keyed by hash keeps the place of what it already holds. */
  function Insert(known: seq<Act>, a: Act): seq<Act> {
    if a in known then known else known + [a]
  }

  /** The Acts that one chain adds to those already found, in the order its links are followed. */
  function Followed(acts: map<Text, Act>, owned: seq<Act>, chain: seq<Text>, known: seq<Act>): seq<Act> {
    if chain == [] then known
    else
      var earlier := Followed(acts, owned, chain[..|chain| - 1], known);
      var link := chain[|chain| - 1];
      if IsOwned(owned, link) || link !in acts then earlier else Insert(earlier, acts[link])
  }

  function Participants(acts: map<Text, Act>, owned: seq<Act>, following: seq<Act>): seq<Act> {
    if following == [] then []
    else
      Followed(acts, owned, following[|following| - 1].authChain,
               Participants(acts, owned, following[..|following| - 1]))
  }

  lemma {:induction false} FollowedExactly(acts: map<Text, Act>, owned: seq<Act>, chain: seq<Text>, known: seq<Act>)
    requires Distinct(known)
    ensures var r := Followed(acts, owned, chain, known);
            && Distinct(r)
            && forall a :: a in r <==>
                 a in known || exists h :: h in chain && h in acts && acts[h] == a && !IsOwned(owned, h)
  {
    if chain != [] {
      var init, link := chain[..|chain| - 1], chain[|chain| - 1];
      FollowedExactly(acts, owned, init, known);
      assert chain == init + [link];
    }
  }

  /** An Act that one of these Acts links and the Command does not own. */
  predicate LinkedFrom(acts: map<Text, Act>, owned: seq<Act>, following: seq<Act>, a: Act) {
    && a.hash in acts && acts[a.hash] == a && !IsOwned(owned, a.hash)
    && exists o :: o in following && a.hash in o.authChain
  }

  lemma {:induction false} LinkedExactly(acts: map<Text, Act>, owned: seq<Act>, following: seq<Act>)
    requires forall h | h in acts :: acts[h].hash == h
    ensures Distinct(Participants(acts, owned, following))
    ensures forall a :: a in Participants(acts, owned, following) <==> LinkedFrom(acts, owned, following, a)
  {
    if following != [] {
      var init, last := following[..|following| - 1], following[|following| - 1];
      LinkedExactly(acts, owned, init);
      FollowedExactly(acts, owned, last.authChain, Participants(acts, owned, init));
      assert following == init + [last];
    }
  }

  /** What takes part in a trajectory: each Act once, and exactly those linked and not owned. */
  lemma ParticipantsExactly(acts: map<Text, Act>, owned: seq<Act>)
    requires forall h | h in acts :: acts[h].hash == h
    ensures Distinct(Participants(acts, owned, owned))
    ensures forall a :: a in Participants(acts, owned, owned) <==> Participates(acts, owned, a)
  {
    LinkedExactly(acts, owned, owned);
    assert forall a :: LinkedFrom(acts, owned, owned, a) <==> Participates(acts, owned, a);
  }

  lemma {:induction false} FollowedInOrder(acts: map<Text, Act>, owned: seq<Act>, chain: seq<Text>, known: seq<Act>,
                                           n: nat)
    requires n <= |chain|
    ensures Followed(acts, owned, chain[..n], known) <= Followed(acts, owned, chain, known)
  {
    if n == |chain| {
      assert chain[..n] == chain;
    } else {
      FollowedInOrder(acts, owned, chain[..|chain| - 1], known, n);
      assert chain[..|chain| - 1][..n] == chain[..n];
    }
  }

  /** They are listed in the order in which they are first linked: what a longer history of links brings
      comes after what was there. */
  lemma {:induction false} ParticipantsInOrder(acts: map<Text, Act>, owned: seq<Act>, following: seq<Act>, n: nat)
    requires n <= |following|
    ensures Participants(acts, owned, following[..n]) <= Participants(acts, owned, following)
  {
    if n == |following| {
      assert following[..n] == following;
    } else {
      var init, last := following[..|following| - 1], following[|following| - 1];
      ParticipantsInOrder(acts, owned, init, n);
      assert init[..n] == following[..n];
      FollowedInOrder(acts, owned, last.authChain, Participants(acts, owned, init), 0);
    }
  }

  class LifecycleService {
    const ledger: MemoryLedger

    constructor (ledger: MemoryLedger)
      ensures this.ledger == ledger
    {
      this.ledger := ledger;
    }

    /** The stages of a Command, its consequence, and the status they amount to. */
    method CommandStatus(command: Text) returns (stages: seq<Act>, consequence: Option<Text>, status: Status)
      requires ledger.Valid()
      ensures var acts := ledger.GetActsForCommand(command);
              && stages == Only(acts, true) && consequence == FirstHash(Only(acts, false))
              && status == StatusOfActs(acts) && Describes(status, acts)
      ensures IsCommandHash(command) ==> status == StatusIn(ledger.View(), command)
    {
      var acts := ledger.GetActsForCommand(command);
      stages := [];
      var consequential := [];
      for i := 0 to |acts|
        invariant stages == Only(acts[..i], true) && consequential == Only(acts[..i], false)
      {
        OnlyNext(acts, i, true);
        OnlyNext(acts, i, false);
        if IsLifecycle(acts[i].actType) {
          stages := stages + [acts[i]];
        } else {
          consequential := consequential + [acts[i]];
        }
      }
      assert acts[..|acts|] == acts;
      consequence := FirstHash(consequential);
      status := StatusOfActs(acts);
      StatusExactly(acts, status);
    }

    /** Follow the links of one owned Act to the Acts this Command does not own. */
    method FollowLinks(owned: seq<Act>, chain: seq<Text>, known: seq<Act>) returns (participating: seq<Act>)
      requires ledger.Valid()
      ensures participating == Followed(ledger.acts, owned, chain, known)
    {
      participating := known;
      for j := 0 to |chain|
        invariant participating == Followed(ledger.acts, owned, chain[..j], known)
      {
        assert chain[..j + 1][..j] == chain[..j];
        if !IsOwned(owned, chain[j]) {
          var linked := ledger.GetAct(chain[j]);
          if linked.Some? {
            participating := Insert(participating, linked.value);
          }
        }
      }
      assert chain[..|chain|] == chain;
    }

    method FollowAll(owned: seq<Act>) returns (participating: seq<Act>)
      requires ledger.Valid()
      ensures participating == Participants(ledger.acts, owned, owned)
    {
      participating := [];
      for i := 0 to |owned|
        invariant participating == Participants(ledger.acts, owned, owned[..i])
      {
        assert owned[..i + 1][..i] == owned[..i];
        participating := FollowLinks(owned, owned[i].authChain, participating);
      }
      assert owned[..|owned|] == owned;
    }

    /** Ownership and participation: the Acts a Command produced, and those that merely take part. */
    method Trajectory(command: Text) returns (owned: seq<Act>, participating: seq<Act>, status: Status)
      requires ledger.Valid()
      ensures owned == ledger.GetActsForCommand(command) && status == StatusOfActs(owned) && Describes(status, owned)
      ensures IsCommandHash(command) ==>
                owned == ActsForCommand(ledger.View(), command) && status == StatusIn(ledger.View(), command)
      ensures participating == Participants(ledger.acts, owned, owned) && Distinct(participating)
      ensures forall a :: a in participating <==> Participates(ledger.acts, owned, a)
    {
      owned := ledger.GetActsForCommand(command);
      participating := FollowAll(owned);
      ParticipantsExactly(ledger.acts, owned);
      var _, _, shown := CommandStatus(command);
      status := shown;
    }
  }

  /** Over every run, an earlier review that a placed resolution links, its payload truly stored (and,
      if it is a seed, its Command on record), takes part in the resolved Command's trajectory without
      being owned by it. */
  lemma ReviewTakesPartUnowned(ed: Verifier, s0: Ledger, steps: seq<Step>, i: nat, k: nat)
    requires WellFormed(s0)
    ensures var s, n := Execute(ed, s0, steps), |s0.order|;
            && WellFormed(s)
            && (n <= i < |s.order| && k < i && At(s, i).actType == "AuthorizationResolved"
                && LinksBack(s, i, k) && IsReview(At(s, k))
                && (n <= k || CommandOnRecord(s.objects, At(s, k)))
                && TrulyAddressed(s.objects, At(s, k).payloadHash) ==>
                  Participates(s.acts, ActsForCommand(s, At(s, i).commandHash), At(s, k)))
  {
    RunLawful(ed, s0, steps, |s0.order|);
    NoCommandReviewsItself(ed, s0, steps, i, k);
    var s, n := Execute(ed, s0, steps), |s0.order|;
    if && n <= i < |s.order| && k < i && At(s, i).actType == "AuthorizationResolved"
       && LinksBack(s, i, k) && IsReview(At(s, k))
       && (n <= k || CommandOnRecord(s.objects, At(s, k)))
       && TrulyAddressed(s.objects, At(s, k).payloadHash)
    {
      UnownedParticipates(s, i, k);
    }
  }

  lemma UnownedParticipates(s: Ledger, i: nat, k: nat)
    requires WellFormed(s) && k < i < |s.order| && LinksBack(s, i, k)
    requires At(s, k).commandHash != At(s, i).commandHash
    ensures Participates(s.acts, ActsForCommand(s, At(s, i).commandHash), At(s, k))
  {
    var command, owned := At(s, i).commandHash, ActsForCommand(s, At(s, i).commandHash);
    OwnedMembers(s.acts, s.order, command, At(s, i));
    assert At(s, i) in owned;
    forall o | o in owned ensures o.hash != At(s, k).hash {
      OwnedMembers(s.acts, s.order, command, o);
    }
  }
}

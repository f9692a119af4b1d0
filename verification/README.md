# Powerfarm ledger: a verified model of the commit protocol

Powerfarm keeps one append-only history of Acts over a content-addressed object store. Every change
enters through one commit gate, which runs some fifteen guards and then places a single Act. In
production many workers run that gate at once: each makes unsynchronised reads against PostgreSQL
and ends with one locked procedure that looks at the decision's cut again. On top of the gate sits an
authority service (exact-cut evaluation of rules, idempotent replay, server-derived Context), and
beside history stand projections of it: lifecycle status, trajectories, principal bindings.

This project models that protocol and proves what it keeps: facts about every reachable state of
every run, about any interleaving of any number of workers, and about the agreement of the
imperative code with its specification. The specification is held to account in turn: `Acceptance`,
`Evaluations`, `Admission` and `Lifecycle.StatusExactly` say in both directions what gate, procedure, service and
status answer, in terms of Acts, entries and request fields.

## How the model is laid out

| file | role |
|---|---|
| `Canon.dfy`, `Types.dfy`, `Tags.dfy`, `Base64.dfy` | canonical values and content hashes, the frozen kernel types, the domain tag, base64url and hex |
| `Ledgers.dfy`, `Gate.dfy` | the ledger as one value, and the gate as a function on it: the specification |
| `History.dfy`, `Ancestry.dfy`, `Consequence.dfy`, `Review.dfy`, `Projection.dfy` | runs of the ledger and the laws of history |
| `MemoryLedger.dfy`, `CommitGate.dfy` | the mutable store and the gate that drives it, proved equal to the specification |
| `Acceptance.dfy` | what the gate and the SQL procedure ask of a new Act, condition by condition, and that they answer by the first one unmet |
| `Provenance.dfy` | where placed Acts come from: signed submissions of the same run |
| `SelfReview.dfy` | exactly when a Command can be brought to review itself |
| `Postgres.dfy`, `Workers.dfy`, `Concurrency.dfy` | the SQL procedure and its counting queries, the gate as a program of single store calls, and N interleaved workers |
| `Schedules.dfy`, `Foresight.dfy` | what workers can be led to do: a lone worker carries out every accepted commit; which Act types may begin at cuts still unknown, and what goes wrong for the others |
| `Rules.dfy`, `Requests.dfy`, `Authority.dfy`, `ServiceLaws.dfy`, `Idempotence.dfy`, `AuthorityService.dfy` | rule combination, requests and Context, the authority service, its laws and its class |
| `Interleaving.dfy` | the service among concurrent workers, each read of an evaluation at a state of its own |
| `Evaluations.dfy`, `Admission.dfy` | what an evaluation rests on and what the Acts it leads to record, said of request and ledger alone |
| `Lifecycle.dfy`, `Principals.dfy`, `BindingRuns.dfy`, `BindingOrder.dfy` | status and trajectory, principal bindings in memory and in the table, one call after the other and with overlapping calls |
| `Genesis.dfy` | the Genesis hash chain |
| `Founding.dfy`, `Scenario.dfy`, `ServiceScenario.dfy`, `BindingScenario.dfy`, `ReviewScenario.dfy` | a ledger as the ceremony leaves it, and histories on it that meet the conditions of the service's laws, or break them where they can be broken |

The Python dictionaries, lists and rows that the source updates in place are fields of classes
(`MemoryLedger`, `CommitGate`, `AuthorityService`, `LifecycleService`, `BindingTable`,
`PrincipalService`). Every method that changes state is proved to leave a function of the old state, index included,
every other to return a function of the present one (`ListActs`: the last Acts, stated by their
hashes), and the laws are proved of those functions. The gate's checks run in the order of the source, and each refusal is
a value of its own.

## What the model takes as given

**Hashes.** SHA-256 over RFC 8785 bytes is symbolic: a digest is an inductive term `Digest(kind,
value)`. Equal digests therefore have equal preimages, no value contains its own digest, and an ordinary
string (`Plain`) is never a digest. Where
only injectivity is used: `Types.ContextHashInjective`, `Types.CommandHashInjective`,
`Types.RecordedHashInjective`, `Genesis.RootDeterminesChain`, `MemoryLedgers.HashOfEntry`, and whatever rests on
them (`Consequence.ReplayedActIsExact`, `Idempotence.ServiceIdempotent`, `Lifecycle.PendingReviewBlocks`,
`ReviewScenario.ReviewedIsCarriedOut`).
Where acyclicity is used: `Canon.DigestNotInside` (a payload hash lies inside a Command hash), and
through it `Review.ReviewOwnedElsewhere`, `Review.NoCommandReviewsItself`,
`Lifecycle.ReviewTakesPartUnowned`, `SelfReview.SelfReviewExactly` and the resolution witness of
`Foresight.LawNeedsKnownCuts`; and `Idempotence.CutMissesItsAct` (no Act's cut contains its own
hash), and through it `Idempotence.PresentIsUnplaced` and what rests on an admitted Act being fresh:
`Idempotence.ServiceIdempotent`, `Interleaving.ServedIsAnswered`, the exact conditions of
`BindingRuns`, `Admission.FreshExactly` and what rests on it, and `SelfReview.SelfReviewExactly`.
That the source sorts a cut before hashing it appears as the constructor `Sorted(set)`: a JSON array
determined by the set. Stored bytes may also be `Foreign`: arbitrary bytes together with whatever
value a JSON parser finds in them.

**Signatures.** Ed25519 is an arbitrary predicate on (key, signature, value).

**Order.** `order` is the insertion order of the `acts` dictionary and the `seq` column of the table.

**Runs.** A run is any finite sequence of commits with arbitrary arguments, object writes, and
arbitrary replacements of registry, identities and bindings. A law proved over runs so holds whoever
calls the gate, and `ServiceLaws.CommitIsRun` carries it to the service.

**Initial state.** The first `|s0.order|` Acts are seeds. They need nothing but `WellFormed` (each at its own hash,
once in the order) unless a statement asks for more: `Ancestral` (parents first) for ancestry and
closed cuts; `SingleConsequence` for one consequence per Command; `SelfNamed` (a seed stored at an
Act digest is what that digest says) for `PendingReviewBlocks`; no seed posing as a resolution of the Command for
`ReviewNotSteppedOver`; a seeded review's Command on record for `NoCommandReviewsItself` and
`ReviewTakesPartUnowned`; and, for the command index, that a seed missing from it owns no real Command
hash.

**Concurrency.** Each store call of the gate is one atomic step on the current database, any other
worker may move between two of them, and the guarded loops (`auth_chain`, rules, Context keys,
parents) read one element per step. The procedure `commit_act` is one step because it holds an
advisory lock; its own reads of objects and registry only grow. A commit
begins with a submission about which nothing is assumed but that the decision's cut is known, which
every evaluation has seen to by then; and not even that for Act types whose guards no later history
can overturn (`Concurrency.Discipline`, `IsSafe`). `Interleaving` adds the evaluation itself, as a dozen kinds of
reads, each answered from a state of its own. Worker runs only add to the registry, since its table is immutable.

**Rules** are total deterministic functions of Identity, Command, Context and cut. Identities are
looked up by hash, as the in-memory ledger does.

## Where the code does less than its documentation says

- `service/lifecycle.py:33-38` says that a review belongs to the review's own Command and merely takes
  part in the reviewed one. The gate does not force this: `put_object` accepts any bytes at any
  string, so a review Command can be its own review as long as nothing is stored yet at the string it
  names its payload by, whether that string is a content hash or not. `SelfReview.SelfReviewExactly`
  gives the run and the exact condition, over all ledgers in order: the slot is free, or already names
  that Command. Bytes stored under their true hash never do (`Review.NoCommandReviewsItself`).
- `kernel/commit.py:147-155` says that a Command under review may not reach consequence unresolved, and
  `kernel/commit.py:138-142` that a resolution rests on no review of another Command. Among concurrent
  workers both need the decision's cut to be known when the gate starts, which the service checks and
  the gate alone does not. `Foresight.UnknownCutStepsOver` and `Foresight.UnknownCutMisgrounds` give the
  runs: worker A holds a cut that already counts the Act worker B is about to place, reads its review
  guards before B and the cut after, and its RPC is accepted. `Foresight.LawNeedsKnownCuts` settles
  which Act types need the rule: if listed types may begin at any cut and all others begin at known
  ones, history stays lawful over every interleaving exactly when the list holds only lifecycle stages
  other than AuthorizationResolved. That a cut is also closed is not needed for these laws.
- `service/principals.py:20-26` says that the binding table follows the Acts. A call commits its Act and
  writes its projection in two transactions. When a link and the revocation of it overlap, and the
  revocation is written first, the revoked principal keeps resolving although nothing is left to be
  written (`BindingScenario.OverlappingCallsPart`). `BindingOrder.OrderedWritesAgree` proves agreement
  for runs in which each principal's projections are written in the order of their Acts.
- Across two versions the domain tag does not separate preimages (`Tags.VersionsMayMeet`);
  `Tags.PreimagesCoincide` says exactly when they meet.

## Model

| member | source | states |
|---|---|---|
| `Concurrency.Serializable` | kernel/commit.py:59-107 | for any number of workers and any interleaving of their store calls, under every safe start rule, a worker that is given an Act is given exactly what one sequential commit of its submission returns at that moment, and the database changes exactly as that commit changes it |
| `Concurrency.NothingPlacedMeanwhile` | service/authority.py:131-137 | a worker's RPC places a new Act only if the Acts are, at every moment since any at which its cut was already known, the very ones known then |
| `Concurrency.RunLinearizes` | supabase/migrations/20260816130000_act_occurrence_uniqueness.sql:71-190 | every interleaved run leaves the database where a sequential run of commits, object writes and administrative changes leaves it |
| `Concurrency.ConcurrentHistoryLawful` | supabase/migrations/20260816130000_act_occurrence_uniqueness.sql:27-34 | after any interleaved run history is lawful, consequence is single per Command, and nothing recorded was changed |
| `Concurrency.RunSound` | kernel/commit.py:59-98 | in every reachable state what a working worker of a steady Act type has passed holds; any other worker's cut is known, and if history is still that cut every guard it has passed still holds |
| `Concurrency.MoveSound` | kernel/commit.py:59-107 | one move of any worker, or of anybody else, keeps that invariant for all workers and only adds to the database |
| `Schedules.LoneWorkerCommits` | kernel/commit.py:46-107 | whatever the gate accepts and the RPC does not refuse, one worker carries out from any state, and leaves the database exactly where the sequential commit leaves it |
| `Foresight.UnknownCutStepsOver` | kernel/commit.py:147-155 | every consequential submission that may begin at a cut counting a request for review still to be placed has a run in which both are placed and the consequence links no resolution: history is unlawful |
| `Foresight.UnknownCutMisgrounds` | kernel/commit.py:129-142 | every resolution that may begin at a cut counting a review still to be placed, of another Command, which it links, has a run in which both are placed: it rests on that review, and history is unlawful |
| `Foresight.FoundedForesees` | kernel/commit.py:76-78 | for every signed Command over a stored payload and every consequential Act type, a ledger as the ceremony leaves it has a pair of submissions of the first kind |
| `Foresight.ReviewedForesees` | kernel/commit.py:129-142 | for every signed review Command, a founded ledger with a seeded request and review has a pair of the second kind |
| `Foresight.LawNeedsKnownCuts` | service/authority.py:134-137 | as soon as anybody can sign a review Command: where the listed Act types may begin at any cut and all others begin at known cuts, history stays lawful over every interleaving exactly when every listed type is a lifecycle stage other than AuthorizationResolved |
| `Interleaving.StillReadsEvaluate` | service/authority.py:127-170 | an evaluation over separate reads, all answered from one ledger, succeeds exactly when the evaluation of that ledger does, with the same result |
| `Interleaving.InterleavedRequestGoverned` | service/authority.py:127-215 | whatever other workers do between the reads of an evaluation, its gate's reads and its RPC: the newly placed Act extends the very history its evaluation first saw, its rules are registered at that moment and, for a consequence, all allowed it, and performer and requester are on record |
| `Interleaving.ServableIsServed` | service/authority.py:172-215 | every request that a ledger allows, and that neither gate nor RPC refuses there, is served by such a run from that ledger |
| `Interleaving.StillAnswers` | service/authority.py:175-215 | the answer put together read by read is, where nothing moves between the reads, the answer of the sequential service |
| `Interleaving.ServedIsAnswered` | service/authority.py:188-215 | a request served by its RPC is answered with its own evaluation and the Act it placed, not labelled a replay |
| `Interleaving.SettledForGood` | service/authority.py:217-245 | in any interleaved run, once a Command has its consequence, every later look at what it settled finds that Act for a matching request and a conflict for any other |
| `Interleaving.InterleavedIdempotence` | service/authority.py:172-215 | in any interleaved run, once a consequential request was served, any later allowed request for its Command never turns to the gate and is answered with that very Act, as a replay, for the same type and Context, and with a conflict otherwise, whenever its other reads happened |
| `ServiceScenario.RootIsServed` | service/authority.py:172-215 | for every way of verifying, root, signatures and principal, an interleaved run serves the root's link and its revocation from a founded ledger |
| `Workers.RpcIsCommit` | supabase/migrations/20260816130000_act_occurrence_uniqueness.sql:75-190 | an accepting RPC of a worker whose passed guards hold at its cut is the sequential commit of its submission, in result and effect |
| `Workers.ProofStepCleared` | kernel/commit.py:109-155 | each read of the structural proof leaves the worker at a point where what it has passed is true of the state read |
| `Workers.RegistryStepCleared` | kernel/commit.py:76-98 | the same for the cut, registry, payload and parent reads, element by element |
| `Workers.ClearedGrows` | kernel/memory.py:35-39 | what a worker has passed survives any growth of objects and registry beside an unchanged history |
| `Workers.SteadyGrows` | kernel/commit.py:121-127 | what a worker has passed with a lifecycle stage other than AuthorizationResolved survives any growth of the whole ledger |
| `Workers.AllGuardsPassed` | kernel/commit.py:64-98 | a worker that has passed every point, at a history equal to its cut, faces no refusal of the sequential gate |
| `Postgres.RpcKeepsLedger` | supabase/migrations/20260816130000_act_occurrence_uniqueness.sql:79-190 | whoever calls the RPC with whatever arguments: consequence stays single, a new row's cut is exactly the history it extends, its parents, registry cut and authorization chain name nothing unknown, a repeated row is the one that is there, nothing recorded changes, and a refusal changes nothing |
| `Postgres.IsIndexed` | supabase/migrations/20260816130000_act_occurrence_uniqueness.sql:26-34 | the rows the partial index covers, by its own list of Act types, are exactly those outside the kernel's lifecycle stages |
| `Acceptance.RpcAnswers` | supabase/migrations/20260816130000_act_occurrence_uniqueness.sql:96-190 | a new row is accepted exactly when every one of eighteen conditions on hashes, arrays, cut, rows and registry entries is met, and holds the arguments field by field; refused, the exception is that of the first condition unmet and nothing changes |
| `Acceptance.GateAnswers` | kernel/commit.py:49-107 | the gate accepts a new occurrence exactly when every one of twenty conditions, said of signature, Acts, entries and objects, is met, and the ledger is then exactly its Command, Context and Act richer; refused, it names the first one unmet, and what is left behind is said for each refusal |
| `Acceptance.ReplayAnswers` | kernel/commit.py:49-63 | an occurrence that holds its place is returned exactly to a submission under the Command's Identity with its valid signature, and nothing is written |
| `Acceptance.ProofAnswers` | kernel/commit.py:109-155 | the flaw found in an authorization chain is the first of six conditions on the Acts it links, and on the Acts of the Command, that is unmet |
| `Provenance.OnlySignedIsHeard` | kernel/commit.py:49-55 | what the gate returns, it returns for the Command's own Identity and a signature valid under its key; without one it refuses and changes nothing |
| `Provenance.PlacedWasSubmitted` | kernel/commit.py:46-107 | over every run, every Act that was not there before comes from a submission of that run, signed, that met every condition of the gate at that moment |
| `Provenance.PlacedWasStarted` | kernel/commit.py:46-107 | over every interleaved run, every Act that was not there before comes from the signed submission a worker began with, and every condition of the gate was met when that worker's RPC placed it |
| `Postgres.ClosedCutFormsAgree` | ledger/postgres.py:151-166 | count of member rows plus no missing parent decides exactly the set-valued closed-cut check |
| `Postgres.CutFormsAgree` | supabase/migrations/20260816130000_act_occurrence_uniqueness.sql:110-115 | equal count plus containment, over a distinct array, holds exactly when history is the decision's cut |
| `Postgres.DistinctByCount` | supabase/migrations/20260815123238_ledger_integrity_checks.sql:17-25 | as many distinct elements as elements, exactly when no element repeats |
| `History.CommitEffect` | kernel/commit.py:46-107 | a commit that places an Act adds exactly that Act at the end, justified by the history before it; any other commit leaves history as it was |
| `History.ProofEstablishes` | kernel/commit.py:109-155 | an accepted authorization chain links the request, the reviews and the resolution it is required to link, in history |
| `History.RunLawful` | kernel/commit.py:46-107 | over every run, every Act placed is and stays justified: self-certified, at exactly the cut before it, with known parents, as the only consequence, and with its review resolved; history only grows |
| `Ancestry.LinearHistory` | kernel/commit.py:76-78 | over every run the cut of each placed Act is the set of Acts before it, counts its position, misses the Act, and lies strictly inside every later cut |
| `Ancestry.AcyclicAncestry` | kernel/commit.py:97-98 | over every run no Act is among its own ancestors |
| `Ancestry.ClosedCutIsTransitive` | ledger/memory.py:74-78 | the one-step parent check holds exactly when the cut contains every ancestor of its members |
| `Ancestry.RunCutsClosed` | kernel/memory.py:18-21 | over every run the whole history and every placed Act's cut are closed, and a closed cut stays closed |
| `Consequence.RunSingleConsequence` | kernel/commit.py:68-74 | over every run a Command has at most one consequential Act |
| `Consequence.GateReplay` | kernel/commit.py:58-63 | an accepted commit repeated in any later state returns the equal Act and writes nothing |
| `Consequence.PlacedActsSelfCertify` | kernel/commit.py:99-105 | over every run each placed Act's hash is the hash of what it records, and its bytes, Command and Context are stored under their own hashes |
| `Consequence.ReplayedActIsExact` | kernel/commit.py:59-63 | over every run, an Act found under a submission's hash is that submission's Act in every field exactly unless it is a seed stored at a hash other than its own |
| `Consequence.CommitLeavesAddressed` | kernel/commit.py:64-107 | accepted or refused, a commit changes no existing object and adds only well-addressed ones; refused, it leaves history as it was |
| `Consequence.HonestAcceptance` | kernel/commit.py:49-107 | over an honest object store the gate accepts exactly the submissions under the Command's own Identity, with a valid signature, that repeat a placed Act or are refused by no guard, and the store stays honest |
| `Review.ResolutionRestsOnReview` | kernel/commit.py:133-143 | over every run a placed AuthorizationResolved links its Command's earlier request and an earlier review, and every earlier review it links names that Command |
| `Review.ReviewNotSteppedOver` | kernel/commit.py:145-155 | over every run a placed consequence of a Command put under review links an earlier resolution of that Command which itself rests on review |
| `Review.ReviewOwnedElsewhere` | kernel/types.py:99-105 | a review whose truly stored payload names a Command is owned by another Command |
| `Review.NoCommandReviewsItself` | kernel/commit.py:138-142 | over every run a placed resolution links no earlier review owned by the Command it resolves, where the review's payload is stored under its true hash and, if the review is a seed, its Command is on record |
| `SelfReview.SelfReviewExactly` | kernel/commit.py:138-142 | on any ledger in order, a review Command has a run in which its placed resolution links a review of its own, whatever stages it has been through, exactly when its payload slot is free or already names it (its Context hashing to another slot) |
| `SelfReview.FoundedSelfReview` | kernel/memory.py:35-39 | on a ledger as the ceremony leaves it, with one payload truly stored, that is every signed review Command but those over that payload |
| `Projection.Project` | kernel/project.py:15-20 | the loop computes the fold over the Acts in their given order |
| `Projection.FoldResumes` | kernel/project.py:15-20 | projecting a longer history is projecting its rest from the state already reached |
| `Projection.ProjectionReproducible` | kernel/project.py:15-20 | over every run, sorting the unordered placed Acts by cut size gives back commit order, hence one projection for every projector |
| `MemoryLedgers.MemoryLedger.PutObject` | kernel/memory.py:35-39 | a hash that holds other bytes or another kind is a collision and changes nothing; otherwise the object is stored |
| `MemoryLedgers.MemoryLedger.AppendAct` | kernel/memory.py:45-50 | a new Act goes to the end of history and of its Command's index entry, whatever string names the Command; a known one is refused and changes nothing |
| `MemoryLedgers.MemoryLedger.WriteAct` | kernel/memory.py:60-67 | when the append is refused the rollback restores the exact prior store |
| `MemoryLedgers.MemoryLedger.CommitAct` | kernel/memory.py:52-67 | replay returns what is there, a collision changes nothing, otherwise bytes and Act are placed together |
| `MemoryLedgers.MemoryLedger.GetActsForCommand` | kernel/memory.py:72-74 | the Acts the index names for any string, in its order; for a Command hash exactly the Acts of that Command in commit order |
| `MemoryLedgers.IndexAppend` | kernel/memory.py:45-50 | placing any Act keeps the one-to-many index exact for every Command |
| `MemoryLedgers.OwnedInOrder` | kernel/memory.py:12-15 | the index entry of a Command lists each of its Acts once, nothing else, in the order they were placed |
| `MemoryLedgers.MemoryLedger.Register` | ledger/memory.py:31-54 | the entry, with its definition, its flag and its given or computed hash, takes the place of the one with its kind, name and birth, or the last place |
| `MemoryLedgers.RegisteringKeepsKeys` | ledger/memory.py:46-54 | registration keeps one entry per kind, name and birth, and every other entry where it was: a version born elsewhere takes nobody's place |
| `MemoryLedgers.HashOfEntry` | ledger/memory.py:43-45 | a given hash is kept, a rule named by a hash is registered under it, and any other entry's hash tells its kind, name and version |
| `MemoryLedgers.MemoryLedger.LinkPrincipal` | ledger/memory.py:104-107 | the principal resolves to the Identity; nothing else changes |
| `MemoryLedgers.MemoryLedger.RevokePrincipal` | ledger/memory.py:109-115 | the principal stops resolving; nothing else changes |
| `MemoryLedgers.MemoryLedger.ListActs` | ledger/memory.py:94-97 | the last Acts of history in commit order, as many as asked for and there, or an error for a limit below one |
| `CommitGates.CommitGate.LinkedActs` | kernel/commit.py:129-132 | the Acts the chain resolves to, in chain order, dangling links dropped |
| `CommitGates.CommitGate.RequireStructuralProof` | kernel/commit.py:109-155 | finds the flaw of the authorization chain that the specification names, or none |
| `CommitGates.CommitGate.RequireGoverned` | kernel/commit.py:79-98 | finds the first registry, payload or parent guard that refuses |
| `CommitGates.CommitGate.PlaceAct` | kernel/commit.py:99-107 | stores Command and Context and places the Act, stopping at the first collision; the index changes only by a newly placed Act |
| `CommitGates.CommitGate.Commit` | kernel/commit.py:46-107 | the step-by-step gate over the mutable store answers and changes the ledger exactly as the specified transition, the index exactly by a newly placed Act, and answers with an Act only to the Command's own Identity with a valid signature |
| `Rules.Authorize` | kernel/rules.py:32-52 | the loop computes the specified decision, or the error of the first rule whose keys are missing |
| `Rules.DecisionIsMostSevere` | kernel/rules.py:35-52 | a decision exists exactly when Identity, keys and rules are there; it is some rule's outcome and no rule's is more severe; it names exactly those rules; an error names the first rule whose keys are missing |
| `Rules.ReasonsInOrder` | kernel/rules.py:51-52 | the reasons given stand in the order of the rules, parted by semicolons |
| `Rules.MoreRulesNeverLoosen` | kernel/rules.py:45-50 | more rules, in any places, never decide more loosely, and the order of rules does not matter |
| `Requests.ContextIsTruthful` | service/models.py:97-116 | derived facts enter as derived, every other value and type is what the caller sent and nothing sent is lost, and a request is refused for this reason exactly when it supplies a derived key |
| `Requests.CommandExactly` | service/models.py:83-95 | a request makes a Command exactly when its hashes and its signature are well formed, and the Command has the request's fields |
| `Evaluations.RequesterExactly` | service/identity.py:17-42 | who asked and of what kind: the performer where nobody is named and that is allowed; otherwise the Identity bound to a non-empty issuer and subject, if it is the performer or known; nobody else |
| `Evaluations.ContextExactly` | service/models.py:97-116 | the Context is the client's values and types with the four derived facts set, and there is one exactly if none of these was supplied and values and types have the same keys |
| `Evaluations.RulesExactly` | service/authority.py:86-110 | a decision stands exactly if every configured name has a rule to run for its current entry, the keys that rule declares are there, and the outcome is that of the most severe, the built-in rule allowing the root and denying everybody else |
| `Evaluations.EvaluationExactly` | service/authority.py:127-170 | a request evaluates exactly where request and ledger give these grounds: Command, closed cuts, signing performer, requester, Context, payload, vocabulary and rules; they determine the evaluation up to the reasons given |
| `Evaluations.HearingAnswers` | service/authority.py:127-143 | an evaluation is refused for the first that is lacking of: form, cuts, a known performer, its signature |
| `Evaluations.HeardIsJudged` | service/authority.py:144-152 | then for a requester that cannot be named, a derived fact supplied, a Context not typed; otherwise it is judged in the one Context it has |
| `Evaluations.JudgingAnswers` | service/authority.py:153-160 | then for its payload, its vocabulary, the want of rules, or the first configured name there is no rule to run for |
| `Admission.FreshActRecords` | service/authority.py:188-215 | a newly placed Act has the request's type, Identity, parents, payload, chain and claimed time, a Command hash made of the request's own fields, and the cuts, rules and Context of an evaluation that has its grounds in the ledger |
| `Admission.ServedActRecords` | service/authority.py:188-215 | the same, whatever other workers do, for the Act that a served request adds |
| `Admission.OthersAreRefused` | service/authority.py:51-67 | where the built-in rule is in force, a request by any Identity but the root evaluates to a denial and is refused with nothing written, unless it asks for that denial or for a resolution to be recorded |
| `Admission.ConsequenceIsTheRoots` | service/authority.py:51-67 | and every consequence the service newly places is the root's |
| `Admission.ServedConsequenceIsTheRoots` | service/authority.py:51-67 | and so is every consequence a request served among concurrent workers adds |
| `Admission.FreshExactly` | service/authority.py:172-215 | a request that evaluates is newly placed exactly when its payload finds its place and every condition of the gate is met then; the new ledger is given |
| `Admission.PlacedUnlessOpen` | service/authority.py:172-215 | over a store addressed by content, what an evaluation leaves open is only the outcome, the consequence, the review chain, the cut and the parents: its Act is newly placed exactly when those conditions of the gate are met |
| `Admission.UnfitExactly` | service/authority.py:178-183 | a request that evaluates is refused as unauthorized exactly when the outcome does not fit the Act type |
| `Admission.SettledAnswers` | service/authority.py:217-245 | for a Command that has its consequence, that Act is returned, labelled with its own cuts and rules, exactly when type, Identity, parents, Context and payload are those asked for, and a conflict otherwise; nothing is written |
| `Admission.OvertakenExactly` | service/authority.py:188-190 | where nothing is settled, a fitting request is a conflict exactly when history is no longer its cut |
| `Admission.RefusedForFirstUnmet` | service/authority.py:195-203 | past these the service passes on the gate's refusal, that of the first condition unmet |
| `ReviewScenario.ReviewedIsCarriedOut` | service/authority.py:172-215 | for every pair of Identities, signatures, payload, claimed time and fitting rule, on a ledger as the ceremony leaves it: one request each, the Command is put under review, reviewed by the other Identity, resolved by a chain linking both, and carried out by a chain linking the resolution; its status is pending review, pending review, pending, committed |
| `ReviewScenario.AnyCommandIsReviewed` | service/authority.py:172-215 | there is such a flow for every Command type and every payload |
| `ReviewScenario.ReviewIsResolved` | kernel/commit.py:133-143 | on any such ledger a resolution linking a request of the Command and a review that names it is placed |
| `ServiceLaws.RuleEntryIsLatest` | service/authority.py:94 | a rule name stands for a highest version born in the cut, and for nothing only if none is |
| `ServiceLaws.ResolvedRulesAreNamed` | service/authority.py:86-110 | resolution yields one rule per configured name, in order, each carrying the hash of its current registered entry |
| `ServiceLaws.EvaluationEstablishes` | service/authority.py:127-170 | an accepted evaluation is authentic, at closed cuts, in registered vocabulary, governed by every configured rule, and truthfully attributed |
| `ServiceLaws.NewConsequenceIsGoverned` | service/authority.py:155-183 | every consequential Act the service newly places records one registered rule per configured name, in order, and every one of them allowed it; where the built-in rule is in force, it is the root's own |
| `ServiceLaws.ContextTellsWhoActed` | service/authority.py:140-152 | in every later state the stored Context of an Act the service newly placed names performer, requester, the requester's kind and the client as the ledger resolved them at evaluation |
| `ServiceLaws.FreshActEvaluated` | service/authority.py:188-215 | a newly placed Act is the one its evaluation describes and, field by field, the one requested, with a permitted outcome, on exactly the history it was evaluated at |
| `ServiceLaws.CommitIsRun` | service/authority.py:172-215 | a service commit is a run of at most one object write and one gate commit |
| `Idempotence.PresentIsUnplaced` | kernel/commit.py:58-63 | a submission at the present history is never placed already, since its hash would lie in its own cut |
| `Idempotence.FreshUnlessSettled` | service/authority.py:184-215 | an accepted consequential request is given a fresh Act exactly when its Command has no consequence yet |
| `Idempotence.ReturnedActAnswers` | service/authority.py:217-245 | a consequential Act the service returns is in history, belongs to the Command evaluated, and matches the request in type, Identity, parents, Context and payload |
| `Idempotence.ServiceIdempotent` | service/authority.py:172-187 | after the service returned a consequential Act, any later allowed request for that Command leaves the ledger unchanged: it gets that very Act for the same type and Context, and a conflict for any other |
| `Idempotence.RefusalLeavesHistory` | service/authority.py:172-203 | a request the service refuses leaves history and existing objects as they were, and adds only well-addressed objects |
| `Idempotence.RunSelfNamed` | kernel/commit.py:56-63 | over every run no Act is stored at the content hash of another |
| `AuthorityServices.AuthorityService.ResolveRules` | service/authority.py:94-110 | the loop yields the specified rules, or the error of the first name that does not resolve |
| `AuthorityServices.AuthorityService.EvaluateAction` | service/authority.py:127-170 | computes the specified evaluation and changes nothing |
| `AuthorityServices.AuthorityService.SettledConsequence` | service/authority.py:217-245 | the loop finds the first consequential Act of the Command, to be replayed or to conflict |
| `AuthorityServices.AuthorityService.AdmitAction` | service/authority.py:188-215 | payload write and gate commit, with the replay decision when the Act was already there; the index changes only by a newly placed Act |
| `AuthorityServices.AuthorityService.Commit` | service/authority.py:172-215 | the service over the mutable ledger answers and changes it exactly as specified, and the index exactly by a newly placed Act |
| `Lifecycle.FirstTerminalIsLeast` | service/lifecycle.py:69-70 | the terminal stage shown is recorded and alphabetically least among those recorded |
| `Lifecycle.StatusExactly` | service/lifecycle.py:64-76 | each status is shown exactly for the listings it stands for: committed, some consequential Act; a terminal stage, no such Act and that stage recorded, alphabetically before any other terminal one; pending review, neither, a request for review and no resolution; not submitted, nothing; pending, the rest |
| `Lifecycle.OnlySplits` | service/lifecycle.py:17-18 | stages, and consequences, of two listings one after the other are those of the first, then those of the second |
| `Lifecycle.OnlyParts` | service/lifecycle.py:17-18 | every Act listed is among exactly one of the two |
| `Lifecycle.StatusNeverRegresses` | service/lifecycle.py:64-76 | over every run a Command's position only rises, and its status changes at most eight times |
| `Lifecycle.PendingReviewBlocks` | service/lifecycle.py:71-73 | while a request for review is recorded and no resolution, terminal stage or consequence, the Command is shown as pending review and no consequential commit for it succeeds or changes anything |
| `Lifecycle.ShownConsequenceIsOnly` | service/lifecycle.py:18-27 | where consequence is single, the consequential Act shown is the only one the Command has, and one is shown exactly when the status is committed |
| `Lifecycle.LifecycleService.CommandStatus` | service/lifecycle.py:15-28 | lists the Command's stages in order, its first consequence, and the one status that describes its Acts |
| `Lifecycle.LifecycleService.FollowLinks` | service/lifecycle.py:44-49 | the inner loop adds the known linked Acts the Command does not own, each once, in the order of the links |
| `Lifecycle.ParticipantsExactly` | service/lifecycle.py:42-49 | what the two loops collect is, each once, exactly the known Acts that the Command's Acts link and it does not own |
| `Lifecycle.ParticipantsInOrder` | service/lifecycle.py:43-49 | what later Acts link comes after what earlier Acts link |
| `Lifecycle.LifecycleService.Trajectory` | service/lifecycle.py:30-58 | owned is exactly what the Command produced, participating exactly what its Acts link and it does not own, in the order first linked, and the status the one that describes the owned Acts |
| `Lifecycle.ReviewTakesPartUnowned` | service/lifecycle.py:33-38 | over every run an earlier review linked by a placed resolution takes part in the resolved Command's trajectory and is not owned by it, where its payload is truly stored and, if it is a seed, its Command is on record |
| `Principals.BindingTable.LinkPrincipal` | ledger/postgres.py:180-193 | a repeated link changes nothing, a second live row for a principal is refused, otherwise one live row is added |
| `Principals.BindingTable.RevokePrincipal` | ledger/postgres.py:195-203 | the principal's live row is closed by the revoking Act and every other row is kept |
| `Principals.LinkShown` | supabase/migrations/20260816140000_principal_bindings.sql:32-34 | linking an unbound principal by a new Act is accepted by the table and keeps map and live rows in agreement |
| `Principals.UnlinkShown` | ledger/postgres.py:195-203 | revoking keeps map and live rows in agreement |
| `Principals.PrincipalService.RequirePayload` | service/principals.py:57-75 | accepts exactly requests of the right Command and Act type with every required field a non-empty string |
| `Principals.PrincipalService.LinkPrincipal` | service/principals.py:32-43 | commits, then binds; a refused form or commit binds nothing |
| `Principals.PrincipalService.RevokePrincipal` | service/principals.py:45-55 | commits, then unbinds; a refused form or commit unbinds nothing |
| `BindingRuns.FreshEffect` | service/principals.py:32-55 | a fresh link or revoke Act carries the request's payload, and moves the projection of history exactly as the call moves the map |
| `BindingRuns.LinkAgreesExactly` | service/principals.py:32-43 | an accepted link keeps map, live rows and projection of history in agreement exactly when it binds a principal as it is bound already, or an unbound one for a Command without a consequence so far |
| `BindingRuns.RevokeAgreesExactly` | service/principals.py:45-55 | an accepted revocation keeps them in agreement exactly when the principal is not bound or the Command has no consequence so far |
| `BindingRuns.BindingsAgree` | service/principals.py:20-26 | over every run of such links and revocations, one after the other, and of other steps: map, live rows and projection of history agree, with at most one live row per principal |
| `BindingScenario.RelinkParts` | service/principals.py:32-43 | an accepted link of a principal bound to somebody else breaks the agreement |
| `BindingScenario.ReplayedLinkParts` | service/principals.py:32-43 | linked, revoked and linked again by the same request, all accepted: everything agrees until the replay, and no longer after it |
| `BindingOrder.MoveInTurn` | service/principals.py:32-55 | where commits and projections are separate moves of overlapping calls, an orderly move keeps this: a principal's live row and its projections still to be written make up what history says of it |
| `BindingOrder.OrderedWritesAgree` | ledger/postgres.py:180-203 | over every run in which each principal's projections are written in the order of their Acts: never two live rows, a principal with nothing left to be written resolves as history has it, and a table with nothing left to be written shows history |
| `BindingOrder.OvertakenWrites` | ledger/postgres.py:180-203 | a link and its revocation, both committed: written in the order of their Acts they agree with history, written the other way round the principal stays live |
| `BindingScenario.OverlappingCallsPart` | service/principals.py:32-55 | such a run from a founded ledger, for every root, signatures and principal |
| `Scenario.RequestPlaces` | service/authority.py:172-215 | wherever its Command is new, the service accepts the root's link or revocation and newly places its Act |
| `Scenario.FirstRequestPlaces` | service/authority.py:172-215 | for every way of verifying, root Identity, signature and principal, the service accepts the root's signed link on a ledger as the ceremony leaves it, and newly places a consequential Act |
| `Scenario.SecondRequestReplays` | service/authority.py:217-245 | the same request, asked again at the later cut, returns that Act and changes nothing |
| `BindingScenario.LinkBindsPrincipal` | service/principals.py:32-43 | that link binds the principal to the root, in agreement in map, rows and projection |
| `Base64.UnpaddedRoundTrip` | ledger/memory.py:24 | for every byte string, encode, strip the padding, restore it by length, decode gives it back |
| `Base64.HashIsHex` | service/models.py:32-35 | a string that is no digest passes for a hash exactly when it is how 32 bytes are written in hex |
| `Base64.HexRoundTrip` | ledger/postgres.py:22-23 | hex, two digits a byte, decodes to the bytes written |
| `Base64.KeyRoundTrip` | ledger/postgres.py:20-30 | every 32-byte key survives both written forms, and no hex form is a base64url form of any key |
| `Base64.SignatureRoundTrip` | service/models.py:38-45 | every 64-byte signature survives unpadded base64url |
| `Base64.EncodeInjective` | genesis/ceremony.py:16 | no two configurations have the same encoding |
| `Tags.PreimagesCoincide` | kernel/canon.py:43-48 | two tagged preimages are equal exactly when kinds are equal and version and bytes run together alike |
| `Tags.TagSeparatesKinds` | kernel/canon.py:45-48 | for one version the preimage determines kind and canonical bytes |
| `Tags.VersionsMayMeet` | kernel/canon.py:43-48 | across versions it does not: two versions and two numbers with one preimage |
| `Genesis.Ceremony` | genesis/ceremony.py:15-25 | the loop yields one chain in the fixed order, each Act carrying the hash of its fields and naming the one before it |
| `Genesis.RootDeterminesChain` | genesis/ceremony.py:19-25 | equal roots have equal chains behind them, in length and in every field of every Act |
| `Genesis.RootDeterminesConfig` | genesis/ceremony.py:16-22 | one root, one configuration, byte for byte |
| `Types.ContextHashInjective` | kernel/types.py:82-87 | equal Context hashes, equal Contexts |
| `Types.CommandHashInjective` | kernel/types.py:99-105 | equal Command hashes, Commands equal in everything but the signature |
| `Types.RecordedHashInjective` | kernel/commit.py:170-188 | equal Act hashes leave no field of the Act free |

## Left out

- RFC 8785 byte output, SHA-256 and Ed25519 themselves: library behaviour, taken as described above. Numbers are exact (`real`), so number formatting and floating point rounding are not modelled.
- Tokens, the MCP server and its tools, environment wiring, connection pools, roles, row-level security, webhooks, everything under `deploy/` and `scripts/`: input and output without protocol state.
- Relations, and the schema of projection, ADK and trajectory tables: no code behind them.
- Key rotation: `ledger/postgres.py:212-218` asks the database which key of an Identity is valid at a cut and demands exactly one; here an Identity has one key, as in the in-memory ledger. The topological projector is vocabulary without an implementation.
- That a denied, expired or superseded Command never reaches consequence, and that a resolution recorded after review was an allow: the gate checks neither, so neither is claimed.
- Replay of lifecycle Acts by the service: with an old cut it is a conflict, with none it is a new Act.
- Agreement of bindings after a link or revocation Act committed outside the principal service, whose payload changes the projection and nothing else. Where the table's index refuses a second live row, the exception that reaches the caller is not modelled, only that the row is not added.
- The opposite direction of `Workers.RpcIsCommit`: the procedure also demands distinct arrays, a known chain and a known Identity, so it refuses some submissions that the sequential gate accepts. `Acceptance.RpcAnswers` and `Acceptance.GateAnswers` say what each asks.
- Foreign keys of the binding table, and calls that end between their commit and their projection: the projection then stays pending in `BindingOrder`.
- Exceptions thrown by a rule's own code, and values outside the canonical JSON types.
- Evaluations that fail under concurrency: the interleaved service model describes the reads of evaluations that succeed, since no other goes on. In `BindingOrder` a commit is one move, evaluation included; commit and projection are what is taken apart there.

# nit, modelled and proved in Dafny

nit stands between developers and a git forge and decides, path by path, who may read and
who may change what. This project models the parts of it whose correctness rests on an
argument over all runs, all paths or all bundles, and proves those arguments:

- **The branch-partitioned task queue** (`Tasks`, `MemoryTasks`, `QueueOrder`,
  `LeaseTable`, `LeaseOrder`, `QueueRefinement`, `Fencing`, `Leases`). Tasks go queued, running, ended under leases with fencing
  tokens. The memory store scans its tasks under a mutex; the SQL store excludes by a unique
  row of `partition_leases`. A run is any sequence of committed transactions by any number
  of workers, claims included whose candidate read is stale. Main results: the lease rows are
  exactly the running partitioned tasks (`LeaseTable.LeasesAreTheRunningTasks`), committed
  SQL transactions simulate memory-store calls (`QueueRefinement.RunSimulates`), and in either
  store only the open claim acts on a task (`Fencing.OnlyTheOpenClaimActs`).
- **The policy engine** (`Policy`, `RuleMeaning`, `Encoding`, `Profile`, `Sorting`, `Groups`,
  `BundleDiff`).
  Evaluation is the declarative rule and does not depend on rule order; equal rights profiles
  decide alike; the cycle search and the membership worklist compute what they should;
  comparing two bundles is sound.
- **Patches and enforcement** (`Patch`, `Enforce`, `Projection`). Splitting tiles the bytes,
  rendering a selection splits back into it, enforcement is all-or-nothing and idempotent, and
  a filtered diff takes the readable projection of one tree to that of the next exactly when
  no section straddles the read boundary.
- **Sync points and the pull cache** (`SyncProtocol`, `SyncGuarantees`,
  `Confidentiality`, `Workspace`, `PullCache`, `SharedPulls`). One state machine of clients, signed tokens, stored sync points, pull and
  push workers and crashes; and a cache under which a projection computed for one subject is
  served to another.
- **Two smaller machines**: the bounded audit export buffer (`AuditBuffer`, `AuditClose`,
  `AuditExporter`) and the MySQL statement splitter (`SqlSplit`).

Code that changes things step by step is a `method` or a `class` proved against functions on
values; what the code promises is then proved of those functions, over whole runs where the
promise is about runs.

## What is assumed

Lease tokens are fresh and tasks are created queued with fresh ids. `releaseExpired` is one
step. Hash functions are injective on the strings they are given; glob matching, the section
parser, the forge's diff, blob digests and the sink's answers are parameters. A sync token is
an unforgeable record of what the server signed. HEAD does not move between a client's diff
and the recording of its push. The stored sync point is not monotone, and nothing here says
it is: a delayed pull worker may put back an older tip.

## Where the code does less than one might expect

Each of these is the code as it stands, at an input where the expectation fails, and with the
condition under which it holds.

- A SQL claim that finds nothing rolls back the releases it began with, the memory store keeps
  them (`QueueRefinement.LapsedLeaseAndEmptyClaim`): the tables part exactly when some lease had
  lapsed (`QueueRefinement.EmptyClaimDiffers`).
- A SQL claim whose read is stale can pass an earlier task of its branch
  (`LeaseOrder.StaleReadOvertakes`); it passes one exactly when one is waiting
  (`LeaseOrder.OvertakesIffWaiting`), and with a fresh read none is (`LeaseOrder.FreshClaimIsFifo`).
- For one tenant and a fresh candidate read, the two task stores answer differently on an empty
  request id used twice (`QueueRefinement.EmptyRequestTwice`) and on a finish stamped before the
  start (`QueueRefinement.FinishBeforeStart`), and nowhere else (`QueueRefinement.AnswersDiffer`).
- The partition key joins repository and branch with a colon; it separates branches because git
  allows none in a branch name (`QueueOrder.PartitionKeySeparates`, `QueueOrder.ColonsCollide`).
- Comparing bundles does not look at the disabled flag: re-enabling an account widens what it
  may do and is not reported (`BundleDiff.ReenablingIsNotReported`). For a user not reported as
  widening, nothing new is allowed exactly when the account was not re-enabled or may do nothing
  anyway (`BundleDiff.SoundExactlyUnlessReenabled`).
- A section with a readable and an unreadable path is dropped whole, so the reader's tree then
  misses its readable half (`Projection.RenameOutOfSight`); of a minimal diff the projection
  comes out exactly when there is no such section (`Projection.ProjectsIffNoneStraddles`).
- Creating a file needs no right to read it (`Enforce.CreatedUnread`, `Enforce.MayPushMeans`), so
  a client's recorded tree can hold a file a pull would never deliver to it; it holds one exactly
  when the push wrote one (`Projection.PushKeepsReadable`).
- A first synchronization that crashed after its commit is applied again over the files it left.
  Normally git refuses it and nothing is recorded (`SyncGuarantees.RetryIsRefused`); if upstream
  replaced those files meanwhile it goes through and records files upstream does not have
  (`SyncGuarantees.RetryOverReplacedFile`). `SyncGuarantees.FirstSyncOverFiles` says exactly when
  it fits and exactly when it is right.
- An Emit that passed the closed check before Close can put a record in the queue after the
  consumer stopped, uncounted (`AuditBuffer.OverlapCanStrand`); that can happen exactly when some
  Emit holds a record at the moment Close is called (`AuditClose.NothingStrandsIffIdle`).
- The comment on `Close` of the audit buffer bounds the wait by one attempt at the destination.
  With two batches left no run makes do with one (`AuditClose.CloseCanTakeTwo`). Every run makes
  at least one attempt for each batch left, a prompt one exactly that many
  (`AuditClose.AttemptsAfterClose`), and one attempt can do exactly when what is left fits one
  batch (`AuditClose.OneAttemptIffOneBatch`).
- Removing a comment can join two dashes into a comment opening: a statement the splitter
  returns need not split to itself (`SqlSplit.DroppedCommentCanOpenAnother`); it does exactly
  when it is clean (`SqlSplit.SplitsToItself`).

## Model

| member | source | states |
|---|---|---|
| `Tasks.PartitionKey` | internal/queue/queue.go:92-97 | exactly pushes have a partition |
| `MemoryTasks.MemoryStore.Create` | internal/store/memory/tasks.go:16-46 | a repeated request id returns the task already there and changes nothing; otherwise the new queued task is the one change |
| `MemoryTasks.MemoryStore.ReleaseExpired` | internal/store/memory/tasks.go:342-359 | every lapsed task and no other goes back to the queue, and the count is their number |
| `MemoryTasks.MemoryStore.BusyPartitions` | internal/store/memory/tasks.go:330-340 | exactly the partitions with a running task |
| `MemoryTasks.MemoryStore.Claim` | internal/store/memory/tasks.go:118-180 | releases, then takes the oldest candidate by creation time and id; all other rows as released |
| `MemoryTasks.MemoryStore.Heartbeat` | internal/store/memory/tasks.go:182-198 | the whole new table and the error cases |
| `MemoryTasks.MemoryStore.Complete` | internal/store/memory/tasks.go:200-225 | the whole new table and the error cases, a finish before the start among them |
| `MemoryTasks.MemoryStore.Fail` | internal/store/memory/tasks.go:227-258 | requeue or terminal failure, and the error cases |
| `MemoryTasks.MemoryStore.Cancel` | internal/store/memory/tasks.go:305-327 | only a queued task is cancelled |
| `MemoryTasks.MemoryStore.QueuePosition` | internal/store/memory/tasks.go:267-303 | the number of tasks between this one and execution |
| `MemoryTasks.OldestExists` | internal/store/memory/tasks.go:131-157 | the dispatch order gives every non-empty set of tasks a head |
| `QueueOrder.ClaimTakesOldest` | internal/store/memory/tasks.go:118-180 | a claim finds a task exactly when one could run after the release, and takes the one created first, by id among equals |
| `QueueOrder.OnlyBranchesQueue` | internal/store/memory/tasks.go:267-303 | what does not wait, or has no branch, has nothing ahead |
| `QueueOrder.PositionZeroMeansNext` | internal/store/memory/tasks.go:267-303 | nothing is ahead exactly when the task could run and nothing of its branch that could was created before it |
| `QueueOrder.PartitionKeySeparates` | internal/queue/queue.go:92-97 | with no colon in branch names one key means one repository and branch |
| `QueueOrder.ColonsCollide` | internal/queue/queue.go:92-97 | with one, two branches can share a key |
| `QueueOrder.ClaimIsFifo` | internal/store/memory/tasks.go:118-180 | when a task is claimed, every earlier task of its partition has ended |
| `QueueOrder.ClaimKeepsAhead` | internal/store/memory/tasks.go:118-180 | a claim lets no later task overtake a queued one |
| `QueueOrder.PositionNeverGrows` | internal/store/memory/tasks.go:267-303 | under any step but a creation the tasks ahead of a queued task only become fewer |
| `QueueOrder.RunsShareKind` | internal/queue/queue.go:92-131 | in every run of submitted tasks, tasks of one partition are of one kind |
| `QueueOrder.PositionOverRun` | internal/store/memory/tasks.go:267-303 | over any run without creations, from any reachable table, a queued task never again has more tasks ahead of it, also when it is claimed meanwhile and comes back by lapse or requeue |
| `QueueOrder.ClaimedIsAlone` | internal/store/memory/tasks.go:118-180 | a claimed task has its partition to itself: nothing else of it runs, and whatever waits is later |
| `QueueOrder.ScanExcludes` | internal/store/memory/tasks.go:330-340 | in every run of the memory store at most one task of a partition runs |
| `LeaseTable.LeaseStore.ReleaseExpired` | internal/store/postgres/tasks.go:443-468 | lapsed tasks and their lease rows go together |
| `LeaseTable.LeaseStore.SelectCandidate` | internal/store/postgres/tasks.go:255-271 | the oldest queued task of a wanted kind on a branch nobody leases |
| `LeaseTable.LeaseStore.ClaimOnce` | internal/store/postgres/tasks.go:234-316 | whatever the read returned, the guarded insert and update decide; anything short of a commit leaves the database as it was |
| `LeaseTable.LeaseStore.Claim` | internal/store/postgres/tasks.go:198-221 | the bounded retry stops at the first attempt that did not lose a race |
| `LeaseTable.LeaseStore.Finish` | internal/store/postgres/tasks.go:389-422 | the row leaves running and its lease row goes, or nothing changes |
| `LeaseTable.LeaseStore.Complete` | internal/store/postgres/tasks.go:331-345 | succeeded with the stored result, or the reason why not |
| `LeaseTable.LeaseStore.Fail` | internal/store/postgres/tasks.go:347-380 | requeued or failed, or the reason why not |
| `LeaseTable.ExecKeepsInv` | internal/store/postgres/tasks.go:234-468 | every transaction keeps lease rows and running partitioned tasks in one-to-one correspondence |
| `LeaseTable.RunKeepsInv` | internal/store/postgres/tasks.go:234-468 | so does every run |
| `LeaseTable.LeasesAreTheRunningTasks` | internal/store/postgres/tasks.go:171-197 | in every reachable state a key has a lease row exactly when it is that of a running partitioned task, and the row names that task |
| `LeaseTable.AtMostOneRunning` | internal/store/postgres/tasks.go:171-197 | no branch ever has two running tasks |
| `LeaseTable.ClaimableExactly` | internal/store/postgres/tasks.go:273-316 | in every reachable state a claim that read this task takes it exactly when, lapsed leases released, it is queued and nothing runs on its branch: no branch is left blocked |
| `LeaseOrder.FreshClaimIsFifo` | internal/store/postgres/tasks.go:255-316 | with a fresh read, in every run of submitted tasks, a claimed task's earlier branch-mates have all ended |
| `LeaseOrder.OvertakesIffWaiting` | internal/store/postgres/tasks.go:273-316 | whatever the read returned, a claim passes an unfinished earlier task of its branch exactly when one is waiting after the release |
| `LeaseOrder.StaleReadOvertakes` | internal/store/postgres/tasks.go:255-316 | at an input: the oldest task when it was read is claimed past one inserted meanwhile |
| `LeaseTable.ClaimLoopIsARun` | internal/store/postgres/tasks.go:198-221 | a contended claim, with other workers committing between attempts, is a run like any other |
| `QueueRefinement.SameCandidates` | internal/store/postgres/tasks.go:255-264 | for one tenant the lease table and the scan leave the same tasks to choose from |
| `QueueRefinement.ClaimSimulates` | internal/store/postgres/tasks.go:234-316 | with a fresh read both stores claim the same task and reach the same table |
| `QueueRefinement.StepSimulates` | internal/store/postgres/tasks.go:74-533 | a committed transaction is one memory-store call; any other changes nothing |
| `QueueRefinement.RunSimulates` | internal/store/postgres/tasks.go:74-533 | over whole runs the SQL task table is the memory store's |
| `QueueRefinement.AnswersDiffer` | internal/store/memory/tasks.go:369-376 | the answers of the two stores differ exactly in the listed cases |
| `QueueRefinement.EmptyRequestTwice` | internal/store/postgres/tasks.go:74-117 | a second task without a request id is refused by one store and added by the other |
| `QueueRefinement.FinishBeforeStart` | internal/store/memory/tasks.go:227-258 | a finish stamped before the start, at an input: two refusals with different errors, and a failure only SQL refuses |
| `QueueRefinement.LapsedLeaseAndEmptyClaim` | internal/store/postgres/tasks.go:239-268 | a lapsed lease and a claim that finds nothing, at an input: the tables part |
| `QueueRefinement.EmptyClaimDiffers` | internal/store/postgres/tasks.go:239-268 | when no wanted task is unleased after the release the claim is empty, and the tables part exactly when a lease had lapsed |
| `Fencing.RunKeepsSys` | internal/queue/queue.go:241-289 | every run of either store keeps each row in step with the history of its claims |
| `Fencing.OnlyTheOpenClaimActs` | internal/store/memory/tasks.go:182-258 | in either store a heartbeat, completion or failure takes effect exactly with the token of the latest claim, before any other exit, and for a completion, in SQL also for a terminal failure, not stamped before the start; otherwise nothing changes |
| `Fencing.AtMostOneExit` | internal/store/memory/tasks.go:182-258 | in either store two exits from running never belong to one claim |
| `Fencing.TerminalIsAbsorbing` | internal/store/memory/tasks.go:182-258 | in either store an ended task is untouched by every step |
| `Fencing.TerminalForever` | internal/store/memory/tasks.go:182-258 | and by every run |
| `Fencing.AttemptsAreBounded` | internal/queue/queue.go:250-266 | at most MaxAttempts - 1 retries, and at most MaxAttempts claims unless leases lapse or workers release |
| `Leases.HeartbeatHolds` | internal/store/postgres/tasks.go:318-329 | in either store a heartbeat that answered Ok holds the task against sweeps exactly until the time it named |
| `Leases.ClaimHolds` | internal/store/memory/tasks.go:159-172 | a claim holds for the lease it asked for, a minute if it asked for none |
| `Leases.NobodyTakesItBefore` | internal/store/postgres/tasks.go:234-468 | over runs, no sweep, claim or other worker's call takes a leased task from its holder before the lease ends |
| `Leases.BeatenTaskCanFinish` | internal/store/memory/tasks.go:182-258 | so the worker that beat can still hand the task back |
| `Leases.IdentityStays` | internal/store/memory/tasks.go:118-327 | no call changes what a task was created with |
| `Leases.CreatedWaits` | internal/store/memory/tasks.go:16-46 | what was submitted is what waits |
| `Leases.CompletedHolds` | internal/store/postgres/tasks.go:331-345 | a completion leaves its result, no error and its time |
| `Leases.FailedHolds` | internal/store/memory/tasks.go:227-258 | a failure leaves its cause; requeued, the task waits as if never started |
| `Leases.CancelledHolds` | internal/store/memory/tasks.go:305-327 | only a waiting task is cancelled, and it has ended |
| `Leases.HandleFailDecides` | internal/queue/queue.go:250-289 | another try exactly below the attempt limit and for a code that is none of the six permanent ones |
| `RuleMeaning.MatchMeans` | pkg/policy/pattern.go:88-101 | a pattern is its glob; with a trailing slash, the directory and what lies under it |
| `RuleMeaning.LiteralPrefixEnds` | pkg/policy/pattern.go:112-117 | specificity counts up to the first wildcard |
| `RuleMeaning.AppliesMeans` | pkg/policy/rule.go:140-192 | a rule applies exactly when it is for the subject, exempts them not, names the action, and its refs and paths cover |
| `RuleMeaning.DecisionMeans` | pkg/policy/engine.go:33-103 | the decision in those terms: some allow rule and no deny rule speaks to the request |
| `RuleMeaning.IdleRuleChangesNothing` | pkg/policy/rule.go:140-192 | a rule that exempts the subject, is for others, or covers not the ref, path or action leaves the whole decision as it is without it |
| `RuleMeaning.LoneAllowAllows` | pkg/policy/engine.go:33-103 | a single allow rule for the subject allows, and is the rule reported |
| `Policy.FirstMatch` | pkg/policy/rule.go:185-192 | a pattern of the list that covers the path, or none does |
| `Policy.BestExists` | pkg/policy/engine.go:49-75 | a best rule is found exactly when some rule of that effect applies |
| `Policy.BestIsFirstMostSpecific` | pkg/policy/engine.go:60-75 | the reported rule is the earliest of the most specific that apply |
| `Policy.DecideIsDeclarative` | pkg/policy/engine.go:33-103 | allowed means known repository, enabled user, some allow, no deny; and the reason says which failed |
| `Policy.RuleOrderIsIrrelevant` | pkg/policy/engine.go:33-103 | outcome, effect and reason are the same under any permutation of the rules |
| `Policy.ScanRules` | pkg/policy/engine.go:42-75 | one pass finds the best deny and the best allow |
| `Policy.Evaluate` | pkg/policy/engine.go:33-103 | the loop decides the declarative rule |
| `Policy.CachingEngine.EvaluateCached` | pkg/policy/engine.go:155-170 | whatever was asked before, the answer is the uncached one |
| `Encoding.ValueOfItoa` | pkg/policy/profile.go:50-95 | decimal lengths read back |
| `Encoding.FieldReadsOff` | pkg/policy/profile.go:50-95 | a length-prefixed field can be read off the front of anything |
| `Encoding.EncodeInjective` | pkg/policy/profile.go:50-95 | lists of any lengths with one encoding are one list |
| `Profile.ComputeProfile` | pkg/policy/profile.go:50-95 | feeding fields to the running hash hashes the encoding of the whole list |
| `Profile.Listed` | pkg/policy/profile.go:50-95 | a position is in the profile exactly when its rule reaches the subject |
| `Profile.EqualProfilesDecideAlike` | pkg/policy/profile.go:18-49 | equal profiles agree on repository, ref and action and give the same full decision on every path |
| `Profile.VersionsNeverShare` | pkg/policy/profile.go:50-95 | equal profiles come from one policy version |
| `Sorting.SortIds` | pkg/policy/policy.go:271-319 | ascending, without duplicates, exactly the given ids |
| `Sorting.AscendingIsUnique` | pkg/policy/policy.go:271-319 | the order map keys come out in cannot show |
| `Groups.Visit` | pkg/policy/policy.go:324-368 | a grey group met again names a cycle; otherwise the group and all it includes finish, in an order that descends along inclusion |
| `Groups.VisitIncludes` | pkg/policy/policy.go:324-368 | the same for everything one group includes |
| `Groups.DetectGroupCycles` | pkg/policy/policy.go:324-368 | an error exactly when the inclusion graph has a cycle, naming a path that runs into itself |
| `Groups.FinishedIsAcyclic` | pkg/policy/policy.go:324-368 | if every group finished there is no cycle |
| `Groups.Reverse` | pkg/policy/policy.go:271-319 | exactly the reversed relation |
| `Groups.Closure` | pkg/policy/policy.go:271-319 | the worklist yields exactly the groups that reach a direct one by inclusion, ascending, and terminates with repeated entries |
| `Groups.ResolveMemberships` | pkg/policy/policy.go:271-319 | fails exactly on a cycle; otherwise each user's groups are the reflexive-transitive closure over their direct ones |
| `Groups.AdoptedAre` | pkg/policy/policy.go:213-248 | only mentioned ids under the directory prefix are adopted, as groups of nobody |
| `Groups.AdoptDirectoryGroups` | pkg/policy/policy.go:213-248 | exactly the directory groups that groups include or rules name, and nothing declared, are added as empty |
| `Groups.CompileGroups` | pkg/policy/policy.go:49-106 | on the groups and rules of a bundle, succeeds exactly when references resolve and inclusion is acyclic, and then resolves every membership |
| `Groups.AdoptedGrantsNothing` | pkg/policy/policy.go:213-248 | adopting directory groups gives nobody a membership |
| `BundleDiff.KeyInjective` | pkg/policy/diff.go:71-75 | without NUL bytes one key means one grant |
| `BundleDiff.GrantsFor` | pkg/policy/diff.go:205-250 | exactly the grants some rule gives the user, each under its key |
| `BundleDiff.GrantMeans` | pkg/policy/diff.go:205-266 | a grant is there exactly when a rule for the user that exempts them not names its action, path and ref, and reaches them as it says |
| `BundleDiff.CompareUser` | pkg/policy/diff.go:142-199 | the four lists are exactly the gained and lost allows and denies, each in key order |
| `BundleDiff.CompareAll` | pkg/policy/diff.go:142-199 | each moved user once, in order; whoever is not listed did not move |
| `BundleDiff.Compare` | pkg/policy/diff.go:142-199 | users and repositories added and removed, in order, and the changes of everyone in both |
| `BundleDiff.ReportReadsBack` | pkg/policy/diff.go:103-116 | a user is not widening exactly when no reported change of theirs widens |
| `BundleDiff.CompareIsSound` | pkg/policy/diff.go:142-250 | a user not reported as widening, and not un-disabled, may do nothing new on any repository, ref, path and action |
| `BundleDiff.SoundExactlyUnlessReenabled` | pkg/policy/diff.go:142-250 | for a user not reported as widening nothing new is allowed exactly when the account was not re-enabled or may do nothing |
| `BundleDiff.SilenceMeansSame` | pkg/policy/diff.go:142-250 | a user not reported at all gets the same outcome and reason on every request |
| `BundleDiff.ReenablingIsNotReported` | pkg/policy/diff.go:142-199 | re-enabling an account is silent although it widens |
| `Patch.SplitTiles` | pkg/patch/parse.go:137-166 | preamble and sections are the input, one section per marker line |
| `Patch.ContentStartsNothing` | pkg/patch/parse.go:126-166 | a section starts at git's marker, and no line of a hunk can be one |
| `Patch.SectionsSplitBack` | pkg/patch/parse.go:137-166 | sections put together split into the same sections |
| `Patch.PreambleSplitsBack` | pkg/patch/parse.go:101-166 | so do a preamble and sections |
| `Patch.SplitIsGood` | pkg/patch/parse.go:137-166 | what splitting yields can be put together again in any selection |
| `Patch.SplitSections` | pkg/patch/parse.go:137-166 | the scanning loop's bounds cut out exactly those sections; it refuses exactly combined diffs |
| `Patch.Parse` | pkg/patch/parse.go:44-74 | one change per section, in order, or the first error |
| `Patch.Render` | pkg/patch/parse.go:101-124 | the preamble and the kept sections, or nothing |
| `Patch.RenderAll` | pkg/patch/parse.go:101-124 | keeping everything returns the input bytes |
| `Patch.RenderReparses` | pkg/patch/parse.go:101-124 | a rendered selection splits back into the preamble and exactly the kept sections, and parses |
| `Enforce.MayReadIsRequirements` | pkg/enforce/enforce.go:219-266 | a section is delivered only if all its paths are readable |
| `Enforce.MayPushMeans` | pkg/enforce/check.go:93-127 | the rights a push needs, stated path by path, guards included |
| `Enforce.GuardsByMode` | pkg/enforce/guards.go:78-125 | by git's mode numbers: admin exactly on protected paths and where a symlink or submodule is left that was not one |
| `Enforce.MayReadMeans` | pkg/patch/change.go:109-122 | a section is readable exactly when both its paths are, where it has them |
| `Enforce.ChecksAre` | pkg/enforce/enforce.go:144-208 | one check for each requirement with the engine's decision, also after a denial |
| `Enforce.CreatedUnread` | pkg/enforce/check.go:93-127 | a policy under which a push may write a file its author may not read |
| `Enforce.GuardsMean` | pkg/enforce/guards.go:78-125 | the guards ask for the admin right exactly on protected paths and newly introduced symlinks and submodules |
| `Enforce.JudgeAll` | pkg/enforce/enforce.go:144-208 | every section is judged in full; kept and dropped partition the changes; the version is the bundle's once anything was decided |
| `Enforce.Push` | pkg/enforce/enforce.go:144-208 | fails exactly on invalid options or an unknown mode; otherwise strip or reject mode, reject by default |
| `Enforce.Pull` | pkg/enforce/enforce.go:219-266 | the readable sections, and invalid options refused |
| `Enforce.ParsedIsNumbered` | pkg/patch/parse.go:44-74 | a parsed set meets what enforcement needs of it |
| `Enforce.RejectIsAllOrNothing` | pkg/enforce/enforce.go:144-208 | reject mode yields a patch exactly when every requirement and guard of every section is allowed, and then it is the input |
| `Enforce.FilterIsIdempotent` | pkg/enforce/enforce.go:144-266 | a non-empty result re-parses and passes again whole |
| `Enforce.StripThenReject` | pkg/enforce/enforce.go:144-208 | what strip mode let through, reject mode accepts unchanged |
| `Enforce.PullOfPull` | pkg/enforce/enforce.go:219-266 | pulling a pull drops nothing and returns the same bytes |
| `Enforce.PullDeliversOnlyReadable` | pkg/enforce/enforce.go:210-266 | from the delivered bytes alone, every section touches readable paths only |
| `Projection.PullIsDelivery` | pkg/enforce/enforce.go:219-266 | the changes a pull keeps have the effects of the delivered sections |
| `Projection.PushIsKeeping` | pkg/enforce/enforce.go:144-208 | the changes a push keeps have the effects of the pushable sections |
| `Projection.DeliveryFollows` | internal/worker/pull.go:79-163 | a reader who agreed with the old tree agrees with the new one, and the patch fits |
| `Projection.FilteredPatchProjects` | pkg/enforce/enforce.go:219-266 | the filtered patch takes projection to projection |
| `Projection.ProjectsIffNoneStraddles` | pkg/enforce/enforce.go:210-218 | exactly when no section straddles the read boundary |
| `Projection.RenameOutOfSight` | pkg/enforce/enforce.go:210-218 | a rename across the read boundary, at an input: the reader keeps the old name |
| `Projection.DeliveryIsReadable` | pkg/enforce/enforce.go:219-266 | nothing is written or removed at an unreadable path |
| `Projection.ProjectionIsAgreement` | internal/worker/pull.go:197-234 | holding the projection is agreeing on readable paths and holding nothing else |
| `Projection.PushFollows` | internal/worker/push.go:79-129 | a pushed diff acts on what the author can read as it acts upstream |
| `Projection.PushKeepsReadable` | pkg/enforce/check.go:93-127 | the pushed tree holds an unreadable file exactly when the push wrote one |
| `SyncProtocol.PullBaseAccepted` | internal/server/pull.go:146-161 | a pull starts from nothing or from the commit of a token minted for its own key, and is refused as bad otherwise, never as stale |
| `SyncProtocol.PushBaseAccepted` | internal/server/resolve.go:73-105 | a push base is accepted exactly when it is a minted token's commit and the stored sync point |
| `SyncProtocol.StepKeeps` | internal/flow/flow.go:158-331 | every step of client, server, worker or crash keeps the protocol invariant |
| `SyncProtocol.RunKeeps` | internal/flow/flow.go:158-331 | so does every run |
| `SyncGuarantees.StateFileIsOneDelivery` | internal/workspace/workspace.go:194-295 | with crashes anywhere and HEAD wherever a reset or a synchronization cut short left it, recorded token and base come from one delivered result, and a pull in flight diffs from the client's own commit |
| `SyncGuarantees.ClientPullIsAccepted` | internal/server/pull.go:146-161 | in every run a client's own pull is accepted, from its own commit, whatever is stored |
| `SyncGuarantees.PullTaskBase` | internal/server/pull.go:146-161 | in every run a pull task diffs from nothing or from a commit signed for its own workspace, repository and branch |
| `SyncGuarantees.PushTaskBase` | internal/server/resolve.go:73-105 | in every run each push task was accepted at some step on a base that was then a minted token's commit and the stored sync point |
| `SyncGuarantees.TokensAreJustified` | internal/worker/push.go:79-208 | in every run each token was signed at a step that justified it: a pull that read the tip, or a push that landed on its base, nothing dropped, the stored point still there, the commit being the base with exactly what was submitted |
| `SyncGuarantees.PushTokenIsFaithful` | internal/worker/push.go:114-129 | in every run a push result with a token names the commit that is the base with exactly what was submitted |
| `SyncGuarantees.SignedIsCurrent` | internal/worker/push.go:178-208 | the step that signs a token leaves the stored point where it points, so a push based on it is accepted at once |
| `SyncGuarantees.NextPushIsAccepted` | internal/server/resolve.go:73-105 | after the pull or push that signed a client's token, until the next one of its workspace and branch finishes, whatever else happens, its next push base is accepted |
| `SyncGuarantees.NextPushIsTaken` | internal/server/push.go:107-185 | and becomes a task with that base, unless enforcement leaves nothing |
| `SyncGuarantees.OnlyEnforcedLands` | internal/worker/push.go:22-129 | in every run what a push brings to a branch that did not move is its base with exactly the sections its author may push |
| `SyncGuarantees.PushReplacesItsTip` | internal/worker/push.go:101-112 | in every run an attempt that landed moved its branch from the very tip its worker had read to its commit |
| `SyncGuarantees.SyncLeavesHead` | internal/workspace/workspace.go:194-267 | HEAD ends on the synchronization commit when there was no local work, with the local work otherwise |
| `SyncGuarantees.WaitingPullApplies` | internal/server/pull.go:125-145 | self-correction: in every gentle run the finished pull a client with a token waits for fits its checkout, and leaves a tree that agrees with the tip on every readable path |
| `SyncGuarantees.TokenWasTip` | internal/worker/push.go:79-208 | in every run each token names a commit that was the tip of its branch at some step before it was signed |
| `SyncGuarantees.RefusedIsRejected` | internal/server/push.go:107-141 | of a parsed patch the protocol refuses a push exactly when enforcement rejects it or renders nothing, and applies what enforcement kept |
| `SyncGuarantees.WorkspaceIsFaithful` | internal/worker/pull.go:79-163 | agreement: in every gentle run (no straddling section, no first synchronization merged into readable files already there) a client's base agrees with the commit of its token on every readable path, and is its projection exactly when it holds nothing unreadable |
| `Confidentiality.SyncShowsNothingUnreadable` | pkg/enforce/enforce.go:219-266 | in every run, straddling sections and crashes included, a synchronization commit agrees with the tree it was applied to on every unreadable path |
| `Confidentiality.RecordedBaseIsReadable` | internal/worker/pull.go:79-163 | in every run, whatever the pulls deliver, the tree a client recorded holds readable files only, if its developer neither pushes unreadable files nor puts them under a first synchronization |
| `Confidentiality.WorkspaceIsProjection` | internal/worker/pull.go:79-163 | in a run that is gentle too, the recorded tree is the projection of the commit the token names |
| `SyncGuarantees.SnapshotOnlyAdds` | internal/workspace/workspace.go:194-244 | a first synchronization only creates files |
| `SyncGuarantees.FirstSyncOverFiles` | internal/workspace/workspace.go:194-244 | over files already there it fits, and is right, exactly under the stated conditions |
| `SyncGuarantees.RetryIsRefused` | internal/workspace/workspace.go:194-267 | a run that crashes in the first synchronization: the retry does not fit and the client stays as it was |
| `SyncGuarantees.RetryOverReplacedFile` | internal/workspace/workspace.go:194-267 | a run in which upstream replaced the file before the retry: it fits, and the client records a file upstream does not have |
| `Workspace.Checkout.ApplySync` | internal/workspace/workspace.go:194-282 | succeeds exactly when the patch fits and, with local work, HEAD is on a branch and the replay goes through; otherwise the state file is untouched; success is the protocol's apply and save steps |
| `Workspace.Checkout.RecordPush` | internal/workspace/workspace.go:285-295 | token and base change together, as the protocol's save step |
| `Workspace.SyncPoints.RecordPull` | internal/worker/pull.go:280-294 | put and sign, as the protocol's pull step leaves stored points and tokens |
| `Workspace.SyncPoints.CompareAndSet` | internal/store/memory/memory.go:334-356 | succeeds exactly from the expected commit, and changes nothing else |
| `Workspace.SyncPoints.Advance` | internal/worker/push.go:178-208 | a token exactly when the stored point was the base |
| `Workspace.SyncPoints.FinishPush` | internal/worker/push.go:114-129 | stored points, tokens and result are those of the protocol's push step; a token exactly under its conditions |
| `PullCache.KeyHashInjective` | pkg/pullcache/pullcache.go:85-95 | one hash means one key |
| `PullCache.StoredConsistent` | internal/pullcache/cache.go:123-155 | storing keeps index and recency list in agreement and within the size limit, and touches no other surviving entry |
| `PullCache.StoredIsFound` | internal/pullcache/cache.go:72-155 | what was just stored is found exactly while it lives |
| `PullCache.EvictsLeastRecent` | internal/pullcache/cache.go:123-155 | a new key pushes out the least recently used one, and only when the cache is full |
| `PullCache.RecentIsFound` | internal/pullcache/cache.go:72-155 | an entry survives any run of fewer than max steps for other keys and is found while it lives |
| `PullCache.HitIsLastPut` | internal/pullcache/cache.go:72-155 | in every run of gets, puts, expiries, evictions and losses a hit is the last put under its key, less than ttl ago |
| `PullCache.Cache.Get` | internal/pullcache/cache.go:72-120 | a live entry whose blob exists, moved to the front; anything else is removed and missed |
| `PullCache.Cache.Put` | internal/pullcache/cache.go:123-155 | the entry at the front, the oldest evicted beyond the limit |
| `PullCache.Cache.Remove` | internal/pullcache/cache.go:169-176 | from index and list together |
| `SharedPulls.DeliversExactlyTheReadable` | internal/worker/pull.go:197-234 | the delivered patch has exactly the diff's sections the reader may read, in order and byte for byte; total, delivered and withheld count them |
| `SharedPulls.DeliversOnlyReadable` | internal/worker/pull.go:197-234 | every section of every successful pull is readable |
| `SharedPulls.EntryDescribes` | internal/worker/pull.go:134-158 | a cache entry holds the digest of such a patch and counts that add up |
| `SharedPulls.SameKeySameProjection` | internal/worker/pull.go:106-158 | pulls with one cache key want the same bytes and counts, whoever they are for |
| `SharedPulls.TruthfulHit` | internal/worker/pull.go:106-158 | what a truthful cache answers is what recomputing would |
| `SharedPulls.HitIsRecomputation` | internal/worker/pull.go:106-158 | in every run a hit is the entry recomputing for this very subject would produce |
| `SharedPulls.CacheKey` | internal/worker/pull.go:106-112 | the key is the hash of remote, range and profile |
| `SharedPulls.Reuse` | internal/worker/pull.go:106-121 | a reused entry is the recomputed one, and the cache stays truthful |
| `SharedPulls.Remember` | internal/worker/pull.go:134-152 | storing a computed projection keeps the cache truthful |
| `SharedPulls.Project` | internal/worker/pull.go:106-158 | a caller cannot tell reuse from recomputation, and gets a patch of readable sections with counts that add up; an account no longer in the bundle is refused first |
| `SharedPulls.Filter` | internal/worker/pull.go:197-234 | the filtered diff with its counts; a blank or empty diff, a bad patch and an account no longer in the bundle |
| `AuditBuffer.RecordsAreConserved` | internal/auditbuf/buffer.go:148-324 | in every interleaving, offered is acknowledged plus dropped plus queued plus in the batch plus still in Emit's hands |
| `AuditBuffer.AckedKeepsOrder` | internal/auditbuf/buffer.go:215-276 | acknowledged records are a subsequence of the accepted ones, in order |
| `AuditBuffer.CloseLeavesNothing` | internal/auditbuf/buffer.go:199-276 | with no Emit overlapping Close, queue and batch are empty when it returns |
| `AuditBuffer.OverlapCanStrand` | internal/auditbuf/buffer.go:148-178 | an Emit overlapping Close can leave a record queued and uncounted |
| `AuditClose.AttemptsAfterClose` | internal/auditbuf/buffer.go:191-213 | with no Emit under way, every run of Close makes at least one attempt for each batch left, and a prompt one exactly that many, wherever the consumer stood |
| `AuditClose.OneAttemptIffOneBatch` | internal/auditbuf/buffer.go:191-213 | the bound of one attempt holds exactly when what is left fits one batch |
| `AuditClose.CloseCanTakeTwo` | internal/auditbuf/buffer.go:191-213 | two records in batches of one: no run stops within one attempt |
| `AuditClose.CanStop` | internal/auditbuf/buffer.go:217-276 | from any state the closed consumer has a prompt run to its end |
| `AuditClose.NothingStrandsIffIdle` | internal/auditbuf/buffer.go:148-178 | no run leaves a record in the queue exactly when no Emit holds one at the moment Close is called |
| `AuditExporter.Exporter.Emit` | internal/auditbuf/buffer.go:148-178 | takes what fits, in order, counts the rest; after Close counts all |
| `AuditExporter.DeliveredMeans` | internal/auditbuf/buffer.go:279-324 | a batch goes through exactly when an attempt within the retries is taken and no earlier backoff was cut short |
| `AuditExporter.Exporter.Attempt` | internal/auditbuf/buffer.go:286-304 | one offer to the sink is one step of the machine |
| `AuditExporter.Exporter.Wait` | internal/auditbuf/buffer.go:306-322 | one backoff, over or cut short by Close, is one step of the machine |
| `AuditExporter.Exporter.Deliver` | internal/auditbuf/buffer.go:279-324 | the batch leaves the buffer once, acknowledged or counted, after as many attempts as the weather takes |
| `AuditExporter.Exporter.Receive` | internal/auditbuf/buffer.go:242-247 | one record moves to the batch; a full batch is up for delivery |
| `AuditExporter.Exporter.FlushOnTick` | internal/auditbuf/buffer.go:225-250 | the batch is delivered and empty after a tick |
| `AuditExporter.Exporter.Drain` | internal/auditbuf/buffer.go:252-273 | terminates with queue and batch empty |
| `AuditExporter.Exporter.Finish` | internal/auditbuf/buffer.go:217-324 | from wherever the signal finds the consumer, it ends with queue and batch empty |
| `AuditExporter.Exporter.Close` | internal/auditbuf/buffer.go:199-213 | at any point of a delivery, and however often: everything ever offered is then acknowledged or counted |
| `SqlSplit.SplitStatements` | internal/store/mysql/migrate.go:129-223 | the flag-driven loop is the lexer, its errors exactly an open literal or block comment |
| `SqlSplit.SplitsToItself` | internal/store/mysql/migrate.go:129-223 | a script is its own only statement exactly when it is trimmed, not empty, and has no comment opening, no unquoted semicolon and balanced quotes |
| `SqlSplit.SplitAppend` | internal/store/mysql/migrate.go:129-223 | after a script that ends outside quotes and comments, a semicolon and any second script split into the statements of the two, or the second's error |
| `SqlSplit.SplitUndoesJoin` | internal/store/mysql/migrate.go:129-223 | splitting undoes joining clean statements with semicolons |
| `SqlSplit.LineCommentIsDropped` | internal/store/mysql/migrate.go:151-196 | a line comment goes to the end of its line and no further |
| `SqlSplit.BlockCommentIsDropped` | internal/store/mysql/migrate.go:158-199 | a block comment goes whole and what follows is read on |
| `SqlSplit.LiteralIsOneStatement` | internal/store/mysql/migrate.go:165-203 | a literal, escapes, semicolons and comment marks in it included, is one statement |
| `SqlSplit.OpenLiteralIsAnError` | internal/store/mysql/migrate.go:213-215 | left open it is the error that names its quote |
| `SqlSplit.BlankScriptIsEmpty` | internal/store/mysql/migrate.go:139-145 | a blank script holds no statement |
| `SqlSplit.EveryStatementIsTrimmed` | internal/store/mysql/migrate.go:139-145 | every statement returned is trimmed and not empty |
| `SqlSplit.ScanNeverGrows` | internal/store/mysql/migrate.go:147-211 | the lexer makes no text of its own |
| `SqlSplit.DroppedCommentCanOpenAnother` | internal/store/mysql/migrate.go:158-163 | a returned statement need not split to itself |

## Left out

- HTTP handlers, middleware, CLI, configuration and logging: plumbing.
- git, the forge drivers, zstd, JSON, YAML, glob matching and diff parsing: foreign code, here
  parameters or abstract trees with a guarded branch update.
- Token cryptography: a token is an unforgeable record of its payload.
- SQL isolation below a transaction, row-level security, deadlock retries: one transaction is
  one step, so a heartbeat committing between the two statements of `releaseExpired` is not
  modelled. The MySQL store runs the same protocol and is not modelled apart from its splitter.
- Create, Heartbeat and Cancel of the SQL store are modelled on values (`SqlExec`), not as
  methods of `LeaseStore`; the retry loop under interference is `ClaimLoop`, also on values.
- Fencing is proved of both stores on values, with histories beside the tables.
- Task ids and lease tokens are numbers standing for the store's total order and for random
  strings; payload bytes, listing and lookup of tasks are not modelled.
- `validateRule`, `checkRuleSubject`, pattern syntax and the parsing of policy files.
- Duplicate and empty ids in a policy file, which Compile refuses before anything modelled here.
- The sync protocol is a state machine on values. Rights and rules are fixed in a run, there is
  one `nit` command at a time in a workspace, and the result of a rebase on the server is
  arbitrary.
- The audit buffer's channels, goroutine and clock are the events of a state machine; the class
  `Exporter` is the code between them. The dropped counter does not wrap around. A prompt run is
  one without a tick or a retry after Close; that the closed signal always beats a backoff is a
  matter of clocks and not modelled.
- The git mirror cache, blob stores, sessions, users, tenants and policy-version rows.
- Scripts for the statement splitter are Unicode text; bytes that are not UTF-8 are not modelled.
- Workspace.Checkout.ApplySync: a git command that fails for a reason other than the patch, the
  replay or a detached HEAD (a full disk, say) is a crash of the protocol with HEAD moved to where
  git left it, not an outcome of this method.

# ASDL Hub: the control loop and what it promises

ASDL Hub runs apps across a user's own machines. Its Hub queues jobs, the agents on the nodes claim them one after
another and report how they ended, and from those reports the Hub decides where each app (a project) runs. Deploys,
moves, failovers, late reports and node outages overlap freely. These files model the part of the Hub that has to get
this right, and prove what it keeps true over every run.

| file | what it holds |
|---|---|
| `Jobs.dfy`, `Scheduler.dfy` | job rows, and the loop that hands a node its next job, proved against the rule it implements |
| `QueueRuns.dfy`, `RacingClaims.dfy` | whole runs of a node's queue: exclusion, order, bounded waiting; claims that race |
| `ClaimRules.dfy` | what a claim needs, in plain numbers, and which jobs count as running |
| `Hub.dfy`, `LiveHub.dfy` | the handlers that change jobs, deployments, projects and migrations, as a class over those tables; each as a step of the protocol |
| `Protocol.dfy` | the Hub, its agents and the copies that really exist, as one transition system |
| `CopyHistory.dfy`, `JobLife.dfy`, `MigrationRuns.dfy` | what every run keeps, with failures, restarts, sweeps and contradicting reports |
| `Journal.dfy` | a journal of what was asked and told, and the rows it entails in every reachable state |
| `MigrationSweeps.dfy` | which migrations a sweep gives up on, and how long a silent node is waited for |
| `CalmRuns.dfy`, `Placement.dfy`, `Convergence.dfy` | runs in which no deploy or removal is lost: where the copies of a project end up |
| `StrayCopies.dfy` | the two ways in which that can go wrong, as concrete runs |
| `Outages.dfy`, `OutageHistory.dfy`, `Uptime.dfy` | outage rows as a history of disjoint intervals, and uptime as its measure |
| `NodeHistory.dfy` | a node's row and its outages, told by what was heard from it |
| `LiveLog.dfy` | the live output of a job and the browsers that follow it |
| `HealthChecker.dfy` | when an app is acted on, and how often it may be restarted |
| `Snapshots.dfy` | snapshot generations on the Hub and on the nodes |
| `TwoFactor.dfy` | single use of second factors when sign-ins race |
| `Table.dfy`, `LogPrinter.dfy`, `Text.dfy` | the command line's column layout and its log printer |
| `Ports.dfy` | the host port a deploy asks for |

Tables, buffers and maps the Hub updates are fields of classes whose methods are proved to compute a function of the
old state; theorems over runs are about that function. A job's ID is its position in the table, which is also its place
in creation order. Clocks, random values, hashes and what scripts do inside Docker are parameters: a deploy that
succeeds replaces the copy on its node, one that fails leaves the node as it was, a removal leaves no copy.

Six promises do not hold without a condition. For each there is an input or a run that breaks it, and a theorem that says
exactly when it holds:

- one copy per app: a deploy that is overtaken and then succeeds is left alone when the newer deploy goes to the same
  node, so if the newer one fails the copy stays (`StrayCopies.FailedDeployLeavesStray`); and the copy in service can be
  removed for a move that then fails (`StrayCopies.FailedMoveLosesCopy`). `Convergence.ConvergesExactlyWhen` gives the
  exact condition, `Convergence.ConvergesToOneCopy` the one an operator can check: no deploy failed or was called off.
- one running job per scope: the claim reads and updates outside a transaction, so two claims of one node can break it
  (`RacingClaims.RaceBreaksScopeExclusion`). It holds exactly as long as no update overlooks a job that started since its
  claim read the queue (`RacingClaims.ExclusionHoldsExactlyWhen`), so always with one claim at a time
  (`QueueRuns.ScopesNeverOverlap`).
- the live log: an append past the end of what the Hub has is taken as contiguous; exactly the chunks that leave no gap
  are safe (`LiveLog.OffsetMustLeaveNoGap`).
- the uptime shown: only a node's newest 500 outages are read, so a longer history can be shown as better than it was
  (`OutageHistory.LongHistoryShowsMore`), exactly when an older row reaches into the window
  (`OutageHistory.UptimeOfHistory`).
- snapshot generations: deleting the newest row makes its number come back (`Snapshots.NextIsFreshExactlyWhen`), and a
  node that holds the older data of that number is not brought up to date (`Snapshots.ReusedNumberIsMissed`,
  `Snapshots.DeployCatchesUpExactlyWhen`).
- single use of time-based codes: a sign-in that loaded the user before a reset and finishes after it can repeat a code
  (`TwoFactor.RepeatsExactlyWhen`, `TwoFactor.StaleSignInRepeats`).

The comment on `removeStrayCopy` (internal/services/job_service.go:392-394) says that the newer deploy will replace the
container it leaves alone. When that deploy fails it does not; the model follows the code.

## Model

| member | source | states |
|---|---|---|
| Jobs.RecommendedParallelJobs | internal/models/node.go:66-76 | the largest number of jobs from 1 to 4 that the hardware affords, and 1 when it affords none |
| Jobs.JobLimit | internal/models/node.go:95-103 | at least one job, exactly one for an agent that cannot run several, at most four by recommendation |
| Jobs.WindowIsPrefix | internal/services/job_service.go:139-141 | the 100 rows a claim reads are the oldest pending ones: nothing outside is older than anything inside |
| Scheduler.JobTable.CountRunning | internal/services/job_service.go:124-137 | the query counts exactly the jobs of the current agent process, and the busy scopes are theirs |
| Scheduler.JobTable.Next | internal/services/job_service.go:123-176 | the loop hands out the oldest job that the scheduling rule lets start, starts it, and changes no other row |
| Scheduler.WalkFollowsRule | internal/services/job_service.go:143-165 | the walk with its queueBlocked flag stops at the first pending job the rule allows |
| Scheduler.FirstAllowedIsNext | internal/services/job_service.go:139-172 | the first allowed row of the window is the oldest job of the node that may start at all |
| QueueRuns.OlderMayStart | internal/services/job_service.go:143-165 | whenever a job may start, so may an older pending job that must precede it: no overtaking, window included |
| QueueRuns.ClaimIsOrderly | internal/services/job_service.go:123-176 | what a claim starts has nothing pending or running that must precede it, shares no running scope, and is alone if unscoped |
| QueueRuns.ClaimKeeps | internal/services/job_service.go:123-176 | a claim keeps scope exclusion and the start order |
| QueueRuns.RegisterKeeps | internal/services/node_service.go:91-96 | a new agent epoch keeps both, because the jobs of the old process no longer occupy the node |
| QueueRuns.ScopesNeverOverlap | internal/services/job_service.go:120-122 | in every reachable state the running jobs of one agent epoch have different scopes, and an unscoped one is alone |
| QueueRuns.NoOvertaking | internal/services/job_service.go:139-175 | in every reachable state, of two jobs in one scope (or with the older unscoped) the older has left the queue and is over before the younger starts |
| QueueRuns.ClaimRespectsLimit | internal/services/job_service.go:143-151 | a claim adds at most one running job, and only while the count is below the limit |
| QueueRuns.IdleClaimTakesOldest | internal/services/job_service.go:104-118 | on an idle node a claim takes the oldest pending job, whatever memory and load are |
| QueueRuns.StepShortensWait | internal/services/job_service.go:143-172 | no step lengthens an unscoped job's wait, and each completion on its node or claim by the idle node shortens it |
| QueueRuns.WaitIsBounded | internal/services/job_service.go:666-684 | while an unscoped job is pending, no run holds more completions and idle claims on its node than its wait at the start |
| RacingClaims.FreshReaderFollowsRule | internal/services/job_service.go:128-173 | a claim split into its read and its conditional updates names the same job when nothing overtakes it |
| RacingClaims.NoJobTwice | internal/services/job_service.go:166-171 | however reads and conditional updates of any number of claims interleave, no job is handed out twice |
| RacingClaims.StepStaysConsistent | internal/services/job_service.go:128-141 | the rows a claim holds are an earlier version of the table, whatever other claims, reports and registrations do |
| RacingClaims.TriedIsClear | internal/services/job_service.go:144-165 | what a claim counted as running it never puts another job beside |
| RacingClaims.UpdateKeepsExclusionExactlyWhen | internal/services/job_service.go:128-173 | a racing update keeps scope exclusion if and only if nothing that started since its claim read the queue shares the job's scope, nor either of them runs alone |
| RacingClaims.ExclusionHoldsExactlyWhen | internal/services/job_service.go:128-173 | over every run of racing claims, scope exclusion holds in all states if and only if no update overlooked such a job |
| RacingClaims.RaceBreaksScopeExclusion | internal/services/job_service.go:128-173 | a run from an empty queue in which two claims that both read before either updates start two jobs of one scope |
| ClaimRules.RecommendsExactlyWhen | internal/models/node.go:62-76 | two, three or four parallel jobs are recommended exactly when what the node reports is at least 4 GiB and two cores for each |
| ClaimRules.LimitIs | internal/models/node.go:95-103 | how many jobs an agent may have at once: one unless it can take more, then as set, then as recommended |
| ClaimRules.WindowHoldsTheOldest | internal/services/job_service.go:139-141 | a claim reads exactly the hundred oldest pending jobs, or all |
| ClaimRules.StartsBesideOnlyWithRoom | internal/services/job_service.go:104-118 | beside a running job, another that is no log stream starts only with 1536 MiB free and a load below the number of cores, as far as the node reports them |
| ClaimRules.OldestFreeJobStarts | internal/services/job_service.go:139-172 | with that much free, a slot free and no unscoped job running or ahead, the oldest pending job of a free scope is the one handed out |
| ClaimRules.LogStreamsAlwaysStart | internal/services/job_service.go:143-151 | a log stream in the window waits for no slot, no room and no other job |
| ClaimRules.CountedAreHeld | internal/services/job_service.go:124-137 | over every run the jobs that count as running on a node are exactly those its present agent process claimed and that have not ended, if no agent restarts in the second in which it claimed |
| Hub.DeploymentOf | internal/services/job_service.go:260-265 | the first deployment of a job, if there is one |
| Hub.MigrationStuck | internal/services/migration_service.go:57-79 | when each kind of migration is given up on: unclaimed, started, ended or without its job |
| Hub.HubService.Dispatch | internal/services/deployer.go:51-115 | a deploy job, its deployment, and the project's current-deployment pointer, and nothing else |
| Hub.HubService.Complete | internal/services/job_service.go:178-254 | a report ends the job, settles its migration and, unless it repeats itself, has the deploy acted on |
| Hub.HubService.CompleteDeploy | internal/services/job_service.go:256-390 | the current deploy moves the project and removes the old copy; an overtaken one only cleans up; a failed one puts the project back |
| Hub.HubService.RemoveStrayCopy | internal/services/job_service.go:392-419 | a removal is queued unless the newer deploy goes to the same node, or, when that one is not recorded, the project is there |
| Hub.HubService.FailStuckJobs | internal/services/job_service.go:666-684 | exactly the jobs past both limits are failed, in order, and their deploys acted on |
| Hub.HubService.DeleteProject | internal/services/project_service.go:463-512 | cancels the pending deploys and queues one removal on the project's node and on each node with an active deploy, in any order |
| Hub.HubService.QueueRemovals | internal/services/project_service.go:494-508 | walking the node set in any order queues exactly one removal for each of its nodes |
| Hub.HubService.MigrateToNode | internal/services/migration_service.go:123-168 | every refusal leaves the rows alone; otherwise one migration starts |
| Hub.HubService.MigrateProject | internal/services/migration_service.go:234-314 | the same for the dashboard's move, which keeps a new image even when it refuses |
| Hub.HubService.FailOver | internal/services/health_service.go:410-487 | in order: an active migration or rollback is waited for; a bad release is put back; no image means given up; a pinned app or one without a target is started again at home, waited for or given up on; else one migration starts |
| Hub.HubService.StartMigration | internal/services/migration_service.go:172-198 | the deploy, the migration row with its source and target, and the project's health |
| Hub.HubService.FindStuckMigrations | internal/services/migration_service.go:83-107 | finds exactly the migrations the sweeper's query and migrationStuck name |
| Hub.HubService.CleanupStuckMigrations | internal/services/migration_service.go:83-121 | fails those and cancels the jobs their targets never claimed |
| LiveHub.RunningHub.Dispatch | internal/services/deployer.go:51-115 | dispatching is the protocol's step, so every invariant of runs holds after it |
| LiveHub.RunningHub.Claim | internal/services/job_service.go:123-176 | so is the claim loop, whose answer is the job the rule names |
| LiveHub.RunningHub.Complete | internal/services/job_service.go:178-254 | so is every report, late or repeated |
| LiveHub.RunningHub.FailStuckJobs | internal/services/job_service.go:666-684 | so is the stuck-job sweep |
| LiveHub.RunningHub.DeleteProject | internal/services/project_service.go:463-512 | so is a deletion, for some order of the removals |
| LiveHub.RunningHub.CleanupStuckMigrations | internal/services/migration_service.go:83-121 | so is the migration sweep |
| LiveHub.RunningHub.MigrateToNode | internal/services/migration_service.go:123-168 | the step that migrates the image in the project's row (by Journal.LandedImage the one that landed last or was set since) or, for each of the refusals, none |
| LiveHub.RunningHub.MigrateProject | internal/services/migration_service.go:234-314 | the image step if one was given, then the migration step exactly when the move is accepted |
| LiveHub.RunningHub.FailOver | internal/services/health_service.go:410-487 | every branch is a run of at most two steps: nothing, a deploy at home, a migration, or a change of status |
| LiveHub.FailOverChooses | internal/services/health_service.go:410-487 | every row after a failover, by condition: moved to the target as a migration, started on its own node, given up on, or waited for; and no two of these conditions meet |
| LiveHub.StepKeeps | internal/services/migration_service.go:150-160 | copies accounted for, rows matching and one active migration per project, after every step whatever its timing |
| Protocol.CurrentIsNewest | internal/services/deployer.go:108-111 | in well-formed rows the job behind the current-deployment pointer is the project's newest deploy job |
| Protocol.DeployEndedCases | internal/services/job_service.go:256-390 | case by case, all that recording a deploy can change in jobs and projects |
| Protocol.ReportedCases | internal/services/job_service.go:178-254 | the same for any report that is not a repetition |
| Protocol.GivenUpCases | internal/services/job_service.go:666-684 | the same for a job given up on |
| CopyHistory.DispatchStaysWellFormed | internal/services/deployer.go:71-111 | a dispatch keeps one deployment per deploy job, in order, and the pointer on the newest |
| CopyHistory.SupersededIsAccounted | internal/services/job_service.go:294-303 | the copy of an overtaken deploy is removed or answered for by a later deploy to its node |
| CopyHistory.LandingIsAccounted | internal/services/job_service.go:374-388 | when a project moves, every node that reported a copy before is still answered for |
| CopyHistory.RunKeeps | internal/services/job_service.go:256-419 | the accounting of copies holds after every step of every run |
| CopyHistory.NoForgottenCopy | internal/services/job_service.go:294-303 | with failures, cancellations and late reports: each node whose deploy reported success is the project's node, had a removal queued since, or was targeted by a later deploy |
| Journal.RowsAreAsJournaled | internal/services/job_service.go:178-390 | over every run: each job's end, each deployment's status and image, each migration's status and each project's node, image, status, health and last deploy are what a journal of requests and reports says, with every limit in seconds |
| Journal.LandedImage | internal/services/job_service.go:335-345 | in every reachable state a landed project's image is that of the deploy that landed last, or the one set by hand since |
| Journal.MoveKeepsImage | internal/services/migration_service.go:162-198 | so a move of such a project deploys that image to the target |
| Journal.FailoverStarts | internal/services/health_service.go:489-503 | in every reachable state a failover starts the newest deploy's image while that deploy's end is not known, else the image that landed last or was set since |
| Journal.LandsExactlyWhen | internal/services/job_service.go:286-345 | a report lands a deploy exactly when it is news, says completed, and the deploy is the newest asked for its live project |
| Journal.SweepIsTooLong | internal/services/migration_service.go:43-107 | the migrations a sweep gives up on, with every limit in seconds |
| Journal.LastWordCounts | internal/services/job_service.go:208-221 | a job's row says what was reported last, and the same report again changes nothing |
| JobLife.AbandonedRows | internal/services/migration_service.go:109-120 | what one migration sweep leaves: no migration it gave up on has a pending job, and no other row changed |
| JobLife.CalledOffNeverStarts | internal/services/job_service.go:166-170 | a job called off before it was claimed is never started in any later state |
| MigrationRuns.StartingKeeps | internal/services/migration_service.go:150-160 | a new migration keeps one active per project, because it starts only when none is |
| MigrationRuns.SweepingKeeps | internal/services/migration_service.go:43-121 | a sweep leaves no migration active past its deadline |
| MigrationRuns.StepMatches | internal/services/migration_service.go:172-198 | every migration row names a deploy of its own project, after every step |
| MigrationRuns.MigrationsEnd | internal/services/migration_service.go:43-121 | in every reachable state a project has at most one active migration, and with sweeps at most d apart none is older than 15 minutes and 2d |
| MigrationRuns.GivenUpUnclaimedNeverStarts | internal/services/migration_service.go:112-119 | a migration given up on while unclaimed never starts its job, whatever happens later |
| MigrationSweeps.UnclaimedIsSwept | internal/services/migration_service.go:57-121 | a migration nobody claimed is failed and its job cancelled exactly when it is over ten minutes old and its target answers, or over one minute old and it does not; otherwise both stay |
| MigrationSweeps.RunningIsSwept | internal/services/migration_service.go:57-121 | one whose job has begun is failed exactly after five minutes of that, and its job is left alone |
| MigrationSweeps.SilentTargetIsNotWaitedFor | internal/services/migration_service.go:83-121 | over every run with sweeps at most d apart, a migration to a node no sweep finds answering waits unclaimed for at most a minute and d |
| CalmRuns.ReliableStep | internal/services/job_service.go:178-254 | while no deploy or removal is lost, each that ended was carried out and ended as it really did, and the queue stays in order |
| CalmRuns.EffectsInOrder | internal/services/job_service.go:120-176 | on one node a project's deploys and removals take effect in creation order, by per-scope first-in-first-out |
| CalmRuns.CopiesStep | internal/services/deploy_command.go:87-114 | a copy exists on a node exactly when the last of the project's jobs to take effect there was a deploy |
| Placement.DispatchPlaces | internal/services/deployer.go:51-115 | a new deploy keeps every finished copy either in its place or followed by a removal |
| Placement.LandingPlaces | internal/services/job_service.go:374-388 | landing queues the removal of the old copy, and none behind the new one |
| Placement.SupersededPlaces | internal/services/job_service.go:294-303 | an overtaken success is removed, spared for a newer deploy to its node, or evicts the project's own copy |
| Placement.CallingOffPlaces | internal/services/migration_service.go:112-119 | a sweep that cancels unclaimed deploys leaves every finished copy where it was accounted for |
| Placement.DeletingClears | internal/services/project_service.go:463-512 | deleting puts a removal behind every deploy that has run or may still run |
| Convergence.RunKeeps | internal/services/job_service.go:256-419 | queue, copies and placement hold together over every calm run |
| Convergence.StrayWasSpared | internal/services/job_service.go:397-400 | a copy left on another node is exactly one that was spared for a deploy that then failed |
| Convergence.LandedCopyStays | internal/services/job_service.go:298-302 | the copy on the project's node is there unless the last thing done to it was an eviction by an overtaken redeploy |
| Convergence.ConvergesExactlyWhen | internal/services/job_service.go:256-419 | for every live project whose jobs are done, with any deploys failing or called off by a sweep: there is one copy on the node where a deploy landed, or none if none ever did, if and only if that copy was not evicted last and no other node kept a spared one |
| Convergence.ConvergesToOneCopy | internal/services/job_service.go:256-419 | however deploys, redeploys and moves overlapped and reports were repeated, if none failed or was called off a quiet project has one copy, on the node of its newest deploy, which is the node the Hub names |
| Convergence.DeletionDrains | internal/services/project_service.go:460-512 | after a deletion at any moment, once its jobs are done the copies left are the spared ones, and none if no deploy failed |
| Convergence.CancelledNeverStarts | internal/services/project_service.go:484-485 | a deploy cancelled by the deletion never starts |
| StrayCopies.FailedDeployLeavesStray | internal/services/job_service.go:397-400 | a run in which an overtaken deploy's copy stays for good on a node the project is not on, and what that condition says of it |
| StrayCopies.FailedMoveLosesCopy | internal/services/job_service.go:298-302 | a run that ends with the project in service on a node that holds no copy of it, and what that condition says of it |
| LiveLog.JobLogHub.Append | internal/services/job_logs.go:62-87 | the chunk without the part already held is added, the buffer cut to its last MiB, and each browser with room given the news |
| LiveLog.JobLogHub.Broadcast | internal/services/job_logs.go:80-86 | in whatever order the browsers are walked, each is sent the event once or misses it |
| LiveLog.JobLogHub.Total | internal/services/job_logs.go:91-98 | what the Hub has of the job, 0 if nothing |
| LiveLog.JobLogHub.Finish | internal/services/job_logs.go:101-116 | ends the log and tells the browsers; an unknown job changes nothing |
| LiveLog.JobLogHub.Forget | internal/services/job_logs.go:117-121 | drops an ended job's log, so that it starts afresh |
| LiveLog.JobLogHub.Subscribe | internal/services/job_logs.go:126-141 | the buffer as a snapshot, and a queue only while the job runs |
| LiveLog.AppendStaysFaithful | internal/services/job_logs.go:59-87 | a slice starting no later than the end, new, repeated or overlapping, extends the prefix held by what is new in it |
| LiveLog.StaysFaithful | internal/services/job_logs.go:59-141 | over any appends, subscriptions and reads: buf is the last min(total, 1 MiB) bytes of the prefix of length total, and a browser whose queue never filled has one contiguous slice |
| LiveLog.NewOutputReachesAll | internal/services/job_logs.go:62-87 | new output is added to the queue of every browser with fewer than 256 events waiting, and the others are known to have missed some |
| LiveLog.NewcomerGetsWhatIsKept | internal/services/job_logs.go:124-141 | a browser that comes while the job runs is given what is kept and follows from there; a late one is not followed up; nobody else notices |
| LiveLog.EndReachesWatchers | internal/services/job_logs.go:100-141 | over every run: a job is over exactly when it was finished and not forgotten since, those followed up are those who came while it ran and did not leave, and each of them that missed nothing is told last of all how it ended |
| LiveLog.FaithfulFromTheStart | internal/services/job_logs.go:50-141 | so it is from a job's first byte on, forgetting included |
| LiveLog.OffsetMustLeaveNoGap | internal/services/job_logs.go:69-77 | the log can be trusted after an append if and only if the chunk starts no later than the end of what is held |
| LiveLog.GapMisleads | internal/services/job_logs.go:69-77 | a chunk past the end gives a browser a byte the output does not have there |
| Uptime.ComputeUptime | internal/services/node_uptime.go:32-57 | the loop computes the specified percentage, rounded to hundredths |
| Uptime.DownCountsCovered | internal/services/node_uptime.go:37-50 | for disjoint outages, open ones included, the clipped lengths add up to the number of instants covered |
| Uptime.UptimeIsUncoveredShare | internal/services/node_uptime.go:30-57 | the percentage is the rounded share of uncovered instants, and the clamp is never taken |
| Uptime.UptimeBounds | internal/services/node_uptime.go:51-56 | always from 0 to 100 percent, and never higher with one more outage |
| Uptime.WindowStart | internal/services/node_uptime.go:86-95 | a window starts at the latest of its length ago, the start of tracking and the node's creation |
| Uptime.UptimeOf | internal/services/node_uptime.go:75-105 | what a node's page shows, out of its newest 500 rows: two windows, the last outage and the week's count; nothing for a node never heard from |
| Uptime.ReadIsEnoughExactlyWhen | internal/services/node_uptime.go:76-78 | the rows read account for all covered instants if and only if no row left unread reaches into the window |
| Uptime.ShownIsTrueOrHigher | internal/services/node_uptime.go:75-105 | the uptime shown is never below the true one, and is the true one under that condition |
| Uptime.WeekIsCountedExactlyWhen | internal/services/node_uptime.go:98-103 | the week's outages are all counted if and only if none left unread lies in the week |
| Uptime.ShareIsNearest | internal/services/node_uptime.go:56 | the percentage is the nearest hundredth of a percent, halves up |
| Uptime.PageShows | internal/services/node_uptime.go:75-105 | the newest outage, the uptime over 604800 and 2592000 seconds (less if tracked or created later), and the number of the newest 500 outages that reach into the week; nothing for a node never heard from |
| Outages.NodeService.OpenOutage | internal/services/node_outages.go:15-31 | one row from the last heartbeat, unless one is open |
| Outages.NodeService.CloseOutage | internal/services/node_outages.go:68-85 | every open outage of the node gets its end, length and cause, and no other row changes |
| Outages.NodeService.CloseOutagesOfOnlineNodes | internal/services/node_outages.go:87-105 | the safety net closes what is open for online nodes at their last heartbeat |
| Outages.NodeService.OpenOutagesForOfflineNodes | internal/services/node_outages.go:107-120 | a restart opens an outage for each offline node heard from before |
| Outages.NodeService.Register | internal/services/node_service.go:91-104 | a registration brings the node back, ends its outage and starts a new agent epoch |
| Outages.NodeService.Heartbeat | internal/services/node_service.go:162-188 | a heartbeat brings the node back and ends its outage |
| Outages.NodeService.SweepOffline | internal/services/node_service.go:502-531 | nodes quiet for too long go offline with an outage, after the grace at start-up |
| OutageHistory.OutagesAreHistory | internal/services/node_outages.go:15-120 | in every reachable state: an online node has no open outage, an offline one has one from its last heartbeat, and each node's outages are in order and disjoint |
| OutageHistory.OpenOnce | internal/services/node_outages.go:15-22 | a node never has two open outages |
| OutageHistory.SweptHasOneOutage | internal/services/node_service.go:502-531 | a node a sweep takes offline has one open outage, from its last heartbeat, and no second one |
| OutageHistory.NetFindsNothing | internal/services/node_outages.go:87-105 | in a reachable state the safety net has nothing to close |
| OutageHistory.NetCloses | internal/services/node_outages.go:87-105 | whatever the rows were, after the net no online node has an open outage |
| OutageHistory.HistoryIsDisjoint | internal/services/node_outages.go:15-85 | a node's rows, read as intervals, are pairwise disjoint |
| OutageHistory.UptimeOfHistory | internal/services/node_uptime.go:75-105 | in every reachable state the uptime shown is the rounded share of the window outside outages if no row beyond the newest 500 reaches into it, so always up to 500 rows; the downtime falls short exactly when one does |
| OutageHistory.LongHistoryShowsMore | internal/services/node_uptime.go:76-78 | a run with 501 outages after which a node that was never up is shown as up for a fifth of a percent |
| NodeHistory.RowsTellTheLast | internal/services/node_service.go:91-104 | over every run a node's row holds the times of its last sign of life, its agent's last registration and its last goodbye since then, and the signal and delay last told |
| NodeHistory.OnlineExactlyWhen | internal/services/node_service.go:502-513 | after each step a node is online exactly when it was just heard from, or was online and no sweep of a Hub up for 120 seconds found it quiet for more than 90 |
| NodeHistory.SweptRows | internal/services/node_outages.go:15-44 | in a reachable state a sweep keeps every outage row and adds one for a node it takes offline, from its last heartbeat, with its last signal and delay, planned exactly when it said goodbye within 120 seconds of that |
| NodeHistory.RestartOpens | internal/services/node_outages.go:107-120 | a restart of the Hub adds the same row for a node it finds offline without one |
| NodeHistory.ReturnEnds | internal/services/node_outages.go:53-85 | when a node is heard from, exactly its open row ends: its length, and the cause decided by the uptime told, the length less 30 seconds, a signal below 50 and a delay above 100 |
| NodeHistory.NetEnds | internal/services/node_outages.go:87-105 | whatever the rows were, the safety net ends all open rows of an online node at its last heartbeat, or where the first of them began if that is later |
| NodeHistory.SweepEnds | internal/services/node_service.go:502-508 | whatever the rows were, and also within the grace, after a sweep no row is open that was open for an online node |
| NodeHistory.EpochsAgree | internal/services/node_service.go:91-92 | the agent start in a node's row is the epoch the scheduler counts jobs from, after any two runs in which the agent registered at the same times |
| HealthChecker.HealthService.CheckAllProjects | internal/services/health_service.go:286-363 | a round judges each listed app by its own history, and forgets or counts nothing for any other |
| HealthChecker.HealthService.HandleUnhealthyProject | internal/services/health_service.go:410-470 | which of waiting, moving, restarting and giving up happens, and what is remembered of it; a move that cannot be queued is waited for |
| HealthChecker.HealthService.RestartInPlace | internal/services/health_service.go:150-185 | each way a restart is refused, put off or queued, and the lists it leaves |
| HealthChecker.HealthService.RecoveryReached | internal/services/health_service.go:192-203 | the counter of good checks of one app, and when it is used up |
| HealthChecker.RestartAllowed | internal/services/health_service.go:99-107 | keeps exactly the restarts inside the window, in order, and allows one more below two |
| HealthChecker.RecentAre | internal/services/health_service.go:99-107 | a restart is kept if and only if it lies inside the window |
| HealthChecker.ContainerConfirmedDown | internal/services/health_service.go:135-145 | only a fresh, nonempty report counts, and the first container that is the app's decides |
| HealthChecker.FailuresAre | internal/services/health_service.go:324-359 | the counter is the number of failed checks since the last good one, modulo three; grace rounds neither count nor reset |
| HealthChecker.ActsExactlyWhen | internal/services/health_service.go:324-362 | the checker acts on an app exactly at every third failed check since the last good one |
| HealthChecker.ListIsKept | internal/services/health_service.go:90-107 | the pruned list still holds every restart the window needs, over any rounds |
| HealthChecker.AtMostTwoRestartsPerWindow | internal/services/health_service.go:90-107 | of any three restarts in place of an app the last is at least 30 minutes after the first |
| HealthChecker.RememberedIsTrue | internal/services/health_service.go:97-107 | pruning the remembered restarts never hides one that still counts |
| HealthChecker.RestartsExactlyWhen | internal/services/health_service.go:150-185 | an app is restarted in place if and only if it is at a third failed check, has nowhere else to go and nothing under way, its online node's agent confirms it down, and fewer than two of all its restarts lie in the last 30 minutes |
| HealthChecker.GivesUpAtEveryFourth | internal/services/health_service.go:125-170 | an app whose agent does not confirm it down is waited for three times and given up on at the fourth, until it answers or is confirmed down |
| HealthChecker.FailsExactlyWhen | internal/services/health_service.go:30-38 | a check counts as failed exactly when the app did not answer and was not deployed in the last 180 seconds |
| HealthChecker.ConfirmedExactlyWhen | internal/services/health_service.go:135-145 | the agent confirms an app down exactly when its report is at most 60 seconds old and not empty, and no container is the first with the app's label or name and running |
| HealthChecker.ActsOnlyThen | internal/services/health_service.go:324-362 | some action is taken at every third failed check, and none at any other |
| HealthChecker.MovesExactlyWhen | internal/services/health_service.go:410-487 | over any rounds, an app moves exactly at a third failed check with no migration or rollback under way, an image, no pin and a target that takes it |
| HealthChecker.WaitsExactlyWhen | internal/services/health_service.go:150-170 | exactly when an app is waited for: something is under way, its move cannot be queued, or its agent has not confirmed it down and the waits are not used up |
| HealthChecker.GivesUpExactlyWhen | internal/services/health_service.go:150-185 | exactly when an app is given up on: no image, or nowhere to go and its node gone, its waits or its restarts used up, or no restart can be queued |
| HealthChecker.RecoversExactlyWhen | internal/services/health_service.go:187-203 | a failed app goes back into service exactly at every second good check in a row |
| Snapshots.SnapshotService.Store | internal/services/snapshots.go:286-305 | the data becomes the newest generation, and of all rows the newest ones are kept, as many as the setting says |
| Snapshots.SnapshotService.DeleteOld | internal/services/snapshots.go:297-301 | deleting one by one beyond the retention leaves exactly the newest rows |
| Snapshots.SnapshotService.Upload | internal/services/snapshots.go:249-284 | a node that is not the host, a body too large and an empty one are refused without a trace; anything else is stored |
| Snapshots.SnapshotService.Restore | internal/services/snapshots.go:561-581 | the chosen row's data is stored again as the newest, unless there is no such row or snapshots are off |
| Snapshots.RowsAreTheLastOnes | internal/services/snapshots.go:286-305 | without manual deletes the rows are the last min(n, keep) stored, with consecutive generations ending at n |
| Snapshots.UploadsExactlyWhen | internal/services/snapshots.go:249-284 | an upload by a node that is not the host, an empty one and one above the limit leave rows, history and replies as they are; any other adds exactly one snapshot with those bytes |
| Snapshots.UploadsComeFromTheHost | internal/services/snapshots.go:255-258 | over every run each uploaded snapshot came from the node that was the host at that moment, and was not empty |
| Snapshots.StepKeeps | internal/services/snapshots.go:126-163 | every step, but deleting the newest row, keeps rows, nodes and messages naming the snapshots they came from |
| Snapshots.NodesAreNeverAhead | internal/services/snapshots.go:116-119 | no node's generation exceeds the Hub's newest, while the newest row is not deleted |
| Snapshots.UnpacksWhatItAskedFor | internal/services/snapshots.go:142-163 | whatever is stored between a deploy's check and its download, what it unpacks is the generation it records |
| Snapshots.DeployCatchesUp | internal/services/snapshots.go:126-163 | a deploy whose check and download succeed ends at the Hub's newest generation, with that data unless it was there already |
| Snapshots.DeployCatchesUpExactlyWhen | internal/services/snapshots.go:126-163 | whatever was deleted before: a deploy leaves its node at the newest generation with that data if and only if the node's generation was below it, or it was there already with that data |
| Snapshots.RestoreBringsBack | internal/services/snapshots.go:559-581 | after restoring a snapshot, a deploy to any node leaves that snapshot's bytes there |
| Snapshots.NextIsFreshExactlyWhen | internal/services/snapshots.go:291-293 | after any deletes, the next generation was never used before if and only if the newest snapshot ever taken is still stored |
| Snapshots.ReusedNumberIsMissed | internal/services/snapshots.go:524-531 | a run after which a node's deploy leaves it with older data under the newest generation's number |
| TwoFactor.CheckTOTP | internal/services/twofactor_service.go:64-82 | the earliest step within one of now, after the last one used, whose code was typed; none if there is none |
| TwoFactor.AuthService.BeginTwoFactor | internal/services/twofactor_service.go:129-153 | a new key and no last step, refused while the factor is on |
| TwoFactor.AuthService.EnableTwoFactor | internal/services/twofactor_service.go:157-185 | turns on with the step that proved the app and a new list of hashes |
| TwoFactor.AuthService.ResetTwoFactor | internal/services/twofactor_service.go:208-212 | clears everything |
| TwoFactor.AuthService.CheckSecondFactor | internal/services/twofactor_service.go:256-292 | judges a code by the row as loaded, and updates the row as it is now only if that is still due |
| TwoFactor.MatchIsFound | internal/services/twofactor_service.go:280-291 | the hash spent is the first that matches, and none is passed over |
| TwoFactor.UndisturbedSignIn | internal/services/twofactor_service.go:254-292 | a sign-in nobody interferes with succeeds if and only if its code is a current unused one or matches an unspent hash |
| TwoFactor.EnablesExactlyWhen | internal/services/twofactor_service.go:157-185 | the factor is turned on exactly when it is off, a key was set up and the code is of a step of 30 seconds at or next to now; that step counts as used |
| TwoFactor.TypedAsShown | internal/services/twofactor_service.go:294-309 | a recovery code is the same with its dash, without it, with spaces and in capitals |
| TwoFactor.ShownCodeSignsIn | internal/services/twofactor_service.go:276-309 | a recovery code typed as it was shown signs in while a hash of it is stored, and takes out one such hash |
| TwoFactor.CheckKeeps | internal/services/twofactor_service.go:254-292 | a racing check keeps accepted steps increasing and the hash list conserved |
| TwoFactor.AcceptedStepsIncrease | internal/services/twofactor_service.go:267-271 | however sign-ins race, the steps accepted within one enrolment strictly increase (section 5.2 of RFC 6238) |
| TwoFactor.CodesAreConserved | internal/services/twofactor_service.go:284-288 | hashes stored and hashes spent are together exactly those given out |
| TwoFactor.NoCodeTwice | internal/services/twofactor_service.go:280-289 | a recovery code that belongs to one hash is accepted at most once in an enrolment |
| TwoFactor.RepeatsExactlyWhen | internal/services/twofactor_service.go:267-268 | a step already accepted is accepted again if and only if the sign-in loaded the row in an enrolment that is over and the row's last step is behind |
| TwoFactor.StaleSignInRepeats | internal/services/twofactor_service.go:206-212 | a run with a reset in which one code is accepted twice |
| Table.WidthsAdd | internal/cli/cli.go:376-378 | visible widths add up across a space: no color code spans it |
| Table.WidthIs | internal/cli/cli.go:311-311 | a color code shows nothing and everything else shows, also an escape that begins none |
| Table.CellsMakeText | internal/cli/cli.go:328-335 | the cells put together again with tabs and newlines are the text, and hold none themselves |
| Table.Block | internal/cli/cli.go:350-353 | the scan ends past the whole block and finds the width its widest cell needs |
| Table.FillColumn | internal/cli/cli.go:344-358 | fills one column for every row that ends a cell in it, and touches no other column |
| Table.Widths | internal/cli/cli.go:334-359 | the widths meet the layout's three requirements: enough, shared by neighbours, no more than needed |
| Table.WidthsAreUnique | internal/cli/cli.go:340-341 | those requirements leave one width for each cell |
| Table.NeighboursAlign | internal/cli/cli.go:310-311 | where two neighbouring rows end a cell in a column, what follows starts at the same visible place on both lines, at least two spaces on |
| Table.Render | internal/cli/cli.go:361-372 | the builder loop writes the padded lines, joined by newlines |
| Table.OneTable | internal/cli/cli.go:322-373 | the layout settles every character printed for a text |
| Table.Table.Flush | internal/cli/cli.go:322-375 | prints that layout of what was written, and empties the buffer |
| LogPrinter.Printer.Write | internal/cli/logs_follow.go:31-51 | after any chunks the whole lines so far are printed, and rest is what follows the last newline |
| LogPrinter.Printer.Flush | internal/cli/logs_follow.go:62-71 | the output is the lines of the body without banners and footers, the last one included |
| LogPrinter.MoreLinesPrinted | internal/cli/logs_follow.go:43-50 | printing a held line's continuation is printing the longer text |
| LogPrinter.FooterExactlyWhen | internal/cli/logs_follow.go:53-58 | a line is left out exactly when it is 36 equals signs between white space or begins with the word of completion |
| LogPrinter.NothingElseIsDropped | internal/cli/logs_follow.go:43-58 | of a text without such lines everything is printed, and a newline after the last |
| LogPrinter.HeaderEnds | internal/cli/logs_follow.go:14-36 | what is printed begins after the first line of equals signs that an empty line follows |
| LogPrinter.CutsDoNotMatterExactlyWhen | internal/cli/logs_follow.go:28-42 | what is printed depends on the text alone, however it was cut, if and only if the header ends within the first three chunks or never |
| Ports.UsedHostPorts | internal/services/placement.go:39-64 | exactly the ports another app on the node was given or a foreign container publishes |
| Ports.OwnsExactlyWhen | internal/services/placement.go:30-37 | a container is the app's own exactly when its label names the app, or it has none and bears the app's name, alone or with a dash and more |
| Ports.FixedPortClash | internal/services/placement.go:66-81 | the first fixed port that is held; none exactly when there is none or ports are automatic |
| Ports.PreferredHostPort | internal/services/deployer.go:117-137 | never a held port: the app's own on its own node if free, else the least free one from 20000 |
| Ports.LeastFree | internal/services/deployer.go:132-136 | the open-ended search ends, at the least port from 20000 that is not held |
| Ports.SearchEndsAtAPort | internal/services/deployer.go:132-136 | at most as far as ports are held, and at a real port if and only if one from 20000 on is free |

## Left out

- Requests and answers: parsing, JSON, authorization, SQL, websockets, notifications, nginx, WireGuard, certificates. Handlers and sweeps are single steps, database writes succeed, and an agent reports only jobs it was handed, as completed or failed.
- The dashboard and the command line's other commands.
- What scripts do inside Docker. A deploy that fails after it has removed the old container leaves no copy; the model has it leave what was there.
- Claims of one node that overlap are in RacingClaims only; the other runs have one claim at a time on a node.
- Retrying or creating a deploy job through the job routes, which makes a deploy without a deployment row, and whose copy nobody tracks.
- Renaming a project, which leaves the container with the old name; removing a node; deployments from before projects had IDs.
- Plugins beside an app, and the snapshot jobs a move adds.
- Interactive jobs nobody waits for are cancelled by a step of Protocol, not by a model of that sweep.
- Which node a deploy without a node, or a failover, picks: any node may be picked. Health scores and rankings are not modelled.
- The pending status of a migration is never written by the code, so no run has one.
- Failed projects that are handed to the failover again later; these always have a target and are not pinned, so they change nothing the restart cap counts.
- App outages and the moment an app began failing, which may overlap in the code; only node outages are proved disjoint.
- The times an app was restarted are kept in the Hub's memory: a Hub restart forgets them, so the cap holds for one Hub's lifetime.
- Floating point: uptime is an integer number of hundredths of a percent.
- A finished job's output is forgotten at some time after it ended; that this takes 30 seconds is not modelled.
- Setting up the second factor reads and writes in one step; only checks race with resets and setups. Secrets always open.
- Hub.HubService.FailOver: which release counts as a bad one, and whether the current deploy is a rollback, are inputs; deployments carry no trigger.
- HealthChecker.HealthService.HandleUnhealthyProject: takes an app that is being rolled back, or begins to be, as one input.
- Convergence.ConvergesExactlyWhen: runs in which a running deploy or removal is lost (its agent restarts, or the Hub gives up on it) are not covered, because then nobody knows whether it left a copy; NoForgottenCopy covers them.
- Jobs.JobLimit: the upper limit of 8 that the settings page enforces is not part of this model.
- Text: strings are sequences of characters; invalid UTF-8 and Unicode's other spaces are not modelled, and lower case is that of ASCII.
- Reading ports out of Docker's text and out of mappings; the model starts from the parsed ports.
- The fallback port search the node itself makes when its port is taken.
- Downloads and uploads that fail leave a node as it was, and are simply steps that do not happen.

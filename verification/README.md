# Verified models of the event pipeline, the approval workflow, migrations, seeding and tenancy

This project models the concurrent and stateful parts of the application in Dafny and proves what
they keep. It has three parts.

**The task-event pipeline** (`Pipeline*.dfy`, `QuorumQueue.dfy`) is one unbounded transition system:
any number of `create` requests, publishers with buffers, a RabbitMQ quorum queue with a delivery
limit and a dead-letter queue, channels that come and go, and any number of `handleMessage` attempts
in any number of processes, interleaved at every `await`. Connections may be lost and processes may
die at any point, `save` may fail before or after its commit, `findOne` may reject outside the `try`,
and a publish that timed out may still be sent later. The delivery limit is a parameter. The services
are also written as the program writes them, as methods over a shared `Cluster`; each of their awaits
takes a schedule of steps of the rest of the system, and each method is proved to be a run of the
transition system in which its own steps are exactly those its outcome stands for. So everything
proved of runs holds of the methods.

**The approval workflow** (`Workflow*.dfy`) is designed code: it exists as TypeScript listings in
`erp-plan-5-workflow.md` and `erp-plan-6-purchase-orders.md`, not yet under `app/src`. Row-locked
transactions, rolled back at any await, run concurrently with creates and with changes of roles, and
are proved equal to a serial replay in commit order. The pool of database clients is part of the
state, of any size: each transaction keeps one, and each lookup of `assertPermission` needs another.

**Schema and data** is the four migrations over a relational model that refuses any statement that
would break a constraint (`Schema.dfy`, `Migrations.dfy`, `MigratedRows.dfy`, `MigrationRunner.dfy`); the seed script,
with any database call failing before or after it takes effect (`Text.dfy`, `Permissions.dfy`,
`Accounts.dfy`, `Seed.dfy`, `SeedResults.dfy`, `SeedScript.dfy`); login, token check, permission guard and roles
(`Access.dfy`, `RolesServices.dfy`), and the proof that the constraints the accounts rely on are those
of the migrated schema (`AccountsSchema.dfy`); and the tenant context under concurrent requests
(`Tenancy.dfy`, `TenancyServices.dfy`), where the program's one mutable store is proved to implement
lexical binding.

Identifiers: a state is a datatype, a step is a datatype, `Enabled` and `Apply` say what a step needs
and does, `Run` strings steps together, and `Inv` is the invariant. Ghost `trace` results name the run
a method made. `hide` only keeps proofs short.

## What the code does not promise

* Exactly-once is false without conditions (`PipelineWitnesses.NotExactlyOnce`): effect and row are
  two steps, although `app/src/database/entities/processed-event.entity.ts:8` speaks of one
  transaction. `PipelineAtMostOnce.AtMostOnceIffSafe` says of any reachable state exactly when the
  effect of an event cannot run twice from there on, in terms of what can still reach its check, and
  `PipelineExactlyOnce.ExactlyOnce` gives the result under the stated intent.
  Even with a single copy and no overlap an effect can run twice
  (`PipelineRedeliveries.EffectTwiceWithoutOverlap`).
* A recorded event can still end in the dead-letter queue (`PipelineRedeliveries.RecordedYetDead`):
  a message is safe from it exactly once its ack has reached the broker
  (`PipelineReach.DeadLetterableIffNotAcked`).
* `app/src/queue/queue.constants.ts:8` counts redeliveries, so a message is delivered up to limit + 1
  times; `README.md:147` of the repository speaks of 3 attempts. The model follows the code.
* The permission column cannot hold a permission with a comma, nor the list of one empty string:
  `Permissions.ColumnRoundTrip` and `Permissions.StoredMembership` say exactly when it works.
* The seed script gives its role to a user of that name even in another tenant. That user is then
  refused everything (`Access.ForeignUserStaysOut`). `Access.AbroadAfterIff` says exactly whom this
  meets.
* Waiting for a row can deadlock, although a row waits for one holder only: `approve` and `reject` keep
  their client while they wait, and the holder's lookups go through the same pool
  (`app/src/users/users.service.ts:17-22`, `app/src/rbac/roles.service.ts:6-11`, and
  `app/src/database/database.module.ts:20-35`, which sets no pool option). As many approvals of one
  instance as there are clients can lock each other out until an operation is rejected, by a timeout
  say (`WorkflowPool.PoolDeadlock`);
  `WorkflowPool.SomeCallEndsIff`, `WaiterGetsTheRow` and `HolderEndsIff` say exactly when not. Fewer
  calls in flight than clients is enough.
* A load in a nested scope of another tenant, or of the empty one, can bring another tenant's entity
  (`Tenancy.OtherScopeIsOpen`, `Tenancy.EmptyScopeIsOpen`); `Tenancy.KeepsToItsTenantIff` says exactly
  which handlers keep to their tenant. Under `app/src` only the interceptor calls `TenantContext.run`,
  so no handler there opens a scope and all of them do.

## Model

| member | source | states |
|---|---|---|
| `PipelineInvariant.InvStep` | app/src/queue/queue.consumer.ts:81-131 | every step of every request, publisher, connection, broker and handler keeps the invariant |
| `PipelineInvariant.InvRun` | app/src/queue/queue.consumer.ts:81-131 | so does every run, of any length and interleaving |
| `QuorumQueue.ReturnValid` | app/src/queue/queue.consumer.ts:63-72 | returning outstanding messages, by nack or by a lost channel, keeps every message in exactly one place and the counts within the limit |
| `PipelineSafety.NothingLostOrInvented` | app/src/queue/queue.consumer.ts:81-131 | in every reachable state the routed copies of any content are exactly the ready, outstanding, acknowledged and dead-lettered ones, and these places are disjoint |
| `PipelineSafety.AckMeansDone` | app/src/queue/queue.consumer.ts:99-121 | a message removed by an ack is an event that is recorded and whose effect has run |
| `PipelineSafety.AckInFlightMeansDone` | app/src/queue/queue.consumer.ts:103-121 | the same already holds while the ack is on its way |
| `PipelineSafety.ClosedForever` | app/src/queue/queue.consumer.ts:73-77 | once closed, a channel never again carries an answer or holds a message, over any run |
| `PipelineSafety.LostChannelIsClosed` | app/src/queue/queue.consumer.ts:73-77 | every channel that was opened and is gone is closed in that sense |
| `PipelineSafety.StaleAttemptMovesNothing` | app/src/queue/queue.consumer.ts:73-77 | whatever an attempt does on a channel that is gone, no message moves and no answer is sent |
| `PipelineSafety.DeadLettersExplained` | app/src/queue/queue.consumer.ts:85-131 | every dead-lettered message is unparseable or was delivered and returned limit + 1 times |
| `PipelineSafety.UnparseableIsDropped` | app/src/queue/queue.consumer.ts:85-94 | an attempt at an unparseable message only ever sends the nack without requeue |
| `PipelineSafety.UnparseableTouchesNothing` | app/src/queue/queue.consumer.ts:85-94 | it changes neither the table of processed events nor the effects |
| `PipelineAnswers.RecordedIsAcked` | app/src/queue/queue.consumer.ts:96-107 | over every run in which its channel lasts, an attempt delivered or checking a recorded event never gets past the check and sends nothing but an ack, and once its answer is settled its message is acknowledged |
| `PipelineAnswers.RecordedCanBeAcked` | app/src/queue/queue.consumer.ts:103-107 | and the check, its ack and the broker's act on it are a run that gets there, with no further effect |
| `PipelineSafety.BoundedDeliveries` | app/src/queue/queue.constants.ts:8-10 | no message is delivered more than limit + 1 times |
| `PipelineSafety.TopologyFirst` | app/src/queue/queue.consumer.ts:41-78 | under all interleavings of setups a channel consumes only when both queues are bound, no dead letter is ever unroutable, and no setup operation is refused |
| `PipelineSafety.EventsNameCommittedTasks` | app/src/tasks/tasks.service.ts:17-41 | every event anywhere names a row committed earlier, and no two events name the same one |
| `PipelineSafety.CreateInsertsOneRow` | app/src/tasks/tasks.service.ts:17-41 | a call that returned inserted exactly one row, with the title its own first step gives and no other owner, whatever became of the publish |
| `PipelineSafety.RowsHaveTitles` | app/src/tasks/tasks.service.ts:17-19 | every row, also one whose caller was told that the insert failed, has the title some call began with |
| `PipelineDedupe.PotentialStep` | app/src/queue/queue.consumer.ts:99-121 | only a check that finds no row adds to how often an effect has run or may still run |
| `PipelineDedupe.RecordedEventSettles` | app/src/queue/queue.consumer.ts:96-121 | once an event is recorded, over any later run only attempts already past the check can run its effect, each at most once |
| `PipelineDedupe.RecordedEventIsQuiet` | app/src/queue/queue.consumer.ts:96-121 | once these are through, the effect never runs again |
| `PipelineDedupe.EffectsBoundedByPasses` | app/src/queue/queue.consumer.ts:96-121 | the effect runs at most as often as checks found no row |
| `PipelineDedupe.PotentialIffChecksAlone` | app/src/queue/queue.consumer.ts:96-121 | for every run from a state with effects run and attempts past their check at most one together: they stay so if and only if each passing check is made before any effect and with no other attempt past its check |
| `PipelineDedupe.PotentialIsReached` | app/src/queue/queue.consumer.ts:99-121 | the bound is tight: a run exists in which every attempt at work runs its effect |
| `PipelineAtMostOnce.AtMostOnceIffSafe` | app/src/queue/queue.consumer.ts:96-131 | for every reachable state and event: every run from it keeps the effect count at most 1 if and only if, for a recorded event, effects run and attempts past their check are at most one, and for any other, no publisher can still send it and effects run, attempts before their effect and deliveries its copies have left are at most one together |
| `PipelineAtMostOnce.FirstDeliveryIsNotSafe` | app/src/queue/queue.constants.ts:8-10 | so with a limit above 0 no unrecorded event whose message waits for its first delivery is safe |
| `PipelineRetry.WorkStep` | app/src/queue/queue.consumer.ts:63-72 | without publishes, every delivery, answer, handler segment and loss of an outstanding message uses up a measure that nothing adds to |
| `PipelineRetry.WorkRunsOut` | app/src/queue/queue.consumer.ts:122-131 | so a run without publishes makes boundedly many of them, however often connections come and go; what follows for the queue is the next rows |
| `PipelineRetry.NothingElseIsStuck` | app/src/queue/queue.consumer.ts:122-131 | where neither broker nor handlers can move while a consumer is connected, nothing is ready, and what is outstanding is held by abandoned attempts whose channel can be lost |
| `PipelineProgress.QueueEmpties` | app/src/queue/queue.consumer.ts:63-72 | from any point of a fair infinite run without publishes the main queue is empty later, nothing ready and nothing outstanding |
| `PipelineProgress.EveryMessageSettles` | app/src/queue/queue.consumer.ts:116-131 | and then every event message is acknowledged, its event recorded and its effect run, or dead-lettered after limit + 1 deliveries |
| `PipelineProgress.FairRunFrom` | app/src/queue/queue.consumer.ts:41-78 | from every state that keeps the invariant, whatever is ready, outstanding, in flight or abandoned in it, there is a fair run without publishes, so the two results speak of every state |
| `PipelineReach.ConsumerConnects` | app/src/queue/queue.consumer.ts:41-78 | from any state that keeps the invariant a new channel can be opened and set up until it consumes, changing nothing but channels and topology |
| `PipelineReach.DeadLetterableIffNotAcked` | app/src/queue/queue.consumer.ts:116-131 | for every reachable state and routed message, recorded or not: some continuation dead-letters it if and only if its ack has not reached the broker |
| `PipelineExactlyOnce.LedgerEntersOnce` | app/src/database/entities/processed-event.entity.ts:4-9 | a run of the ledger enters each event once, with effect count 1 |
| `PipelineExactlyOnce.RefinesLedger` | app/src/queue/queue.consumer.ts:99-121 | with effect and row as one step and no overlapping attempts at one event, the concurrent system refines the ledger; redeliveries stutter |
| `PipelineExactlyOnce.ExactlyOnce` | app/src/database/entities/processed-event.entity.ts:4-9 | in every such run from the start each recorded event took effect exactly once and no other event did |
| `PipelineWitnesses.TwoCopiesChecked` | app/src/queue/queue.service.ts:54-74 | for every limit a reachable state has two attempts checking the same unrecorded event |
| `PipelineWitnesses.OverlapRunsTwice` | app/src/queue/queue.consumer.ts:99-116 | two such attempts can both run the effect |
| `PipelineWitnesses.NotExactlyOnce` | app/src/queue/queue.consumer.ts:99-121 | for every limit a run from the start ends with an effect that ran twice |
| `PipelineRedeliveries.EffectTwiceWithoutOverlap` | app/src/queue/queue.consumer.ts:109-131 | for every limit above 0 a run in which at every point there is one message and at most one attempt under way, whose segments are a whole attempt up to the rejected save and then a second check and effect, ends with the effect run twice |
| `PipelineRedeliveries.RecordedYetDead` | app/src/queue/queue.consumer.ts:116-121 | for every limit a run exists that ends with an event recorded, its effect run, and its message dead-lettered |
| `PipelineServices.QueueConsumerService.HandleMessage` | app/src/queue/queue.consumer.ts:81-132 | the whole call, under any schedules, is a run whose own segments are those of its outcome; the outcome is the one its lookup, effect and save bring about; on an open channel the answer sent is ack for a recorded event, requeue for a failure, drop for an unparseable message, and none where the lookup was rejected or the process died |
| `PipelineServices.QueueConsumerService.Parse` | app/src/queue/queue.consumer.ts:84-94 | unparseable messages are nacked without requeue at once, events go on to the check |
| `PipelineServices.QueueConsumerService.Check` | app/src/queue/queue.consumer.ts:99-107 | a rejected findOne leaves the message unacked and unanswered; a row found sends an ack and runs nothing; no row leads to the effect |
| `PipelineServices.QueueConsumerService.Process` | app/src/queue/queue.consumer.ts:109-131 | effect, row and ack in this order if nothing throws, else a requeue |
| `PipelineSetup.ConsumerChannel.SetUp` | app/src/queue/queue.consumer.ts:41-78 | the setup on a new channel, under any schedules, ends consuming exactly if the channel lasted, and then both queues are bound |
| `PipelineCreate.QueueService.PublishTaskCreated` | app/src/queue/queue.service.ts:54-74 | a fresh event id, a publish that may throw, and a race with the timeout; the call's steps are those of its end |
| `PipelineCreate.TasksService.Create` | app/src/tasks/tasks.service.ts:17-41 | the insert alone decides the result, unless the process dies before the commit, between the commit and its reply, or while publishing; the row returned is a new one with the title given, and no committed row ever changes; the publish only adds its own steps |
| `WorkflowLedger.ReplayConsistent` | erp-plan-5-workflow.md:351-429 | whatever calls are made serially, orders match approved order requests one to one and field by field, and steps match decisions |
| `WorkflowLedger.DecidedOnce` | erp-plan-5-workflow.md:368-370 | an instance is decided exactly once if it is not pending, and never if it is |
| `WorkflowLedger.DecisionsAuthorised` | erp-plan-5-workflow.md:365-377 | every decision in a replay was allowed at its turn |
| `Workflow.Serialisable` | erp-plan-5-workflow.md:351-429 | after any concurrent run the committed tables are those of the committed calls made one at a time in commit order |
| `Workflow.CommittedTablesConsistent` | erp-plan-6-purchase-orders.md:285-304 | in every reachable state committed orders are in bijection with approved order requests, and each decided instance has the one step that decided it |
| `Workflow.OneDecisionWins` | erp-plan-5-workflow.md:351-370 | however many calls race for an instance, at most one commits, and one did exactly if it is not pending |
| `Workflow.DecisionsWereAllowed` | erp-plan-5-workflow.md:365-377 | each committed decision was made by someone other than the requester (approvals) whose role, as read, was of the instance's tenant and held the permission |
| `WorkflowHistory.DecisionRestsOnStoredRole` | erp-plan-5-workflow.md:435-447 | each committed decision of any run is the commit of one transaction that, after its lock and before its commit, looked up the approver, who had a role id at that moment, and then that id, which held at that moment the role of the check; that role is of the instance's tenant and holds the registered permission |
| `WorkflowDecisions.RowPassesIff` | erp-plan-5-workflow.md:362-375 | the check of the row lets a transaction on exactly if the row is pending, its type registered and, for an approval, the approver not the requester |
| `WorkflowDecisions.UserPassesIff` | erp-plan-5-workflow.md:435-439 | the lookup of the user lets it on exactly if the user has a role id, and with that id |
| `WorkflowDecisions.RolePassesIff` | erp-plan-5-workflow.md:440-446 | the lookup of the role lets it on exactly if that role exists, is of the instance's tenant and has the registered permission among whatever else it has |
| `WorkflowDecisions.PendingRun` | erp-plan-5-workflow.md:368-370 | over any run a row that is still pending is the row it was |
| `WorkflowPool.HolderEndsIff` | erp-plan-5-workflow.md:356-397 | a transaction that holds its row can end by its own steps, no database operation rejected, if and only if a client is free or it needs no further one (its row is refused, or its lookups are behind it) |
| `WorkflowPool.WaiterGetsTheRow` | erp-plan-5-workflow.md:351-361 | who waits for a locked row can still get it without a rejected operation, whatever the others do, if and only if not every client is with a call that waits for a locked row or needs a second client |
| `WorkflowPool.SomeCallEndsIff` | erp-plan-5-workflow.md:435-447 | under the same condition exactly some call under way can still end; otherwise none ever does without a rejected operation |
| `WorkflowPool.PoolDeadlock` | erp-plan-5-workflow.md:356-377 | for every pool size above 0 a reachable state in which that many calls of approve on one pending instance use the pool up, and none of them ever ends without a rejected operation |
| `Workflow.TerminalIsAbsorbing` | erp-plan-5-workflow.md:368-370 | a decided instance never changes again, over any run |
| `Workflow.RollbackLeavesNoTrace` | erp-plan-5-workflow.md:356-397 | for any run and any transaction that does not commit in it: the run without that transaction's steps is a run too, and ends with the same tables, log and other transactions |
| `WorkflowServices.WorkflowService.Create` | erp-plan-5-workflow.md:331-349 | a pending instance with the tenant, payload and requester given, exactly if the type is registered and a client is free to save it; refused exactly if the type is not registered; else nothing changes |
| `WorkflowServices.WorkflowService.CheckLocked` | erp-plan-5-workflow.md:362-375 | self-approval is refused first, then a decided instance, then an unregistered type, and nothing else is |
| `WorkflowServices.WorkflowService.AssertPermission` | erp-plan-5-workflow.md:435-447 | undisturbed, the approver passes exactly if qualified: a role of the instance's tenant that has the permission among others; a refusal rolls back; a lookup without a free client waits, with row and transaction kept |
| `WorkflowServices.WorkflowService.Approve` | erp-plan-5-workflow.md:356-398 | the call under any schedules is a run whose own steps are a whole approval ending in the commit, or stop without one; undisturbed, it commits exactly if the row is free and open to the approver, the approver qualified, a second client free, the payload one the handler takes and no database call rejected, and any refusal has its own reason; what it commits is the step of this approver and the old row with only status and completion changed; if only the commit's reply is lost the call rejects and the approval stands |
| `WorkflowServices.WorkflowService.Reject` | erp-plan-5-workflow.md:400-429 | the same for a rejection, without handler and self-reject check |
| `WorkflowServices.PurchaseOrdersService.OnModuleInit` | erp-plan-6-purchase-orders.md:285-304 | the order handler is registered under its own type and permission, which is what the bijection assumes of the registry |
| `WorkflowServices.PurchaseOrdersService.RequestCreate` | erp-plan-6-purchase-orders.md:306-316 | a request is refused exactly if the vendor is not one of the tenant's or the type is not registered, and otherwise created once a client is free |
| `Migrations.UpSucceeds` | app/src/database/migrations/1784200000000-CreateTenantsAndScopeUsers.ts:14-78 | each migration up, from any data that keeps the constraints, has no statement refused and reaches the next schema; the backfill makes NOT NULL and foreign key hold for any users |
| `Migrations.DownSucceeds` | app/src/database/migrations/1784300000000-CreateRoles.ts:87-93 | each migration down has no statement refused and leaves exactly what the older schema holds of the data |
| `Migrations.UpKeepsData` | app/src/database/migrations/1784200000000-CreateTenantsAndScopeUsers.ts:45-68 | migrating up keeps every table, row and column there was |
| `Migrations.UpThenDown` | app/src/database/migrations/1784200000000-CreateTenantsAndScopeUsers.ts:80-84 | down after up restores schema and rows exactly |
| `Migrations.RunsSucceed` | app/src/database/migrations/1784300000000-CreateRoles.ts:13-93 | any last-in-first-out sequence of ups and downs between any constraint-keeping writes has no statement refused and keeps the constraints of its schema |
| `Migrations.RevertingRestores` | app/src/database/migrations/1784100000000-CreateUsers.ts:6-38 | migrating up any number of times and reverting them all restores the database |
| `MigratedRows.TaskRows` | app/src/database/migrations/1784083581965-InitSchema.ts:6-8 | in any migrated database a task has an id of its own and a title |
| `MigratedRows.EventRows` | app/src/database/entities/processed-event.entity.ts:10-20 | at most one row records an event |
| `MigratedRows.UserRowsAt` | app/src/database/migrations/1784100000000-CreateUsers.ts:6-34 | a username is one user's; from the third migration on every user has a tenant, from the fourth on it may have a role |
| `MigratedRows.TenantRows` | app/src/database/migrations/1784200000000-CreateTenantsAndScopeUsers.ts:14-37 | a tenant name is one tenant's |
| `MigratedRows.RoleRows` | app/src/database/migrations/1784300000000-CreateRoles.ts:13-62 | a tenant has at most one role of a name |
| `MigratedRows.RowsPoint` | app/src/database/migrations/1784300000000-CreateRoles.ts:47-84 | users and roles are of tenants that exist, and a user's role exists |
| `MigrationRunner.InitSchema.Up` | app/src/database/migrations/1784083581965-InitSchema.ts:6-9 | the statements in order are all accepted and leave exactly the two tables, empty |
| `MigrationRunner.InitSchema.Down` | app/src/database/migrations/1784083581965-InitSchema.ts:11-14 | and dropping them is accepted too |
| `MigrationRunner.CreateUsers.Up` | app/src/database/migrations/1784100000000-CreateUsers.ts:6-34 | adds the empty users table, leaving the rest |
| `MigrationRunner.CreateUsers.Down` | app/src/database/migrations/1784100000000-CreateUsers.ts:36-38 | leaves what the older schema holds |
| `MigrationRunner.CreateTenantsAndScopeUsers.Up` | app/src/database/migrations/1784200000000-CreateTenantsAndScopeUsers.ts:14-78 | six statements, none refused: one tenant, named default, every user as before and in it, the other tables untouched |
| `MigrationRunner.CreateTenantsAndScopeUsers.Down` | app/src/database/migrations/1784200000000-CreateTenantsAndScopeUsers.ts:80-84 | leaves what the older schema holds |
| `MigrationRunner.CreateRoles.Up` | app/src/database/migrations/1784300000000-CreateRoles.ts:13-85 | five statements, none refused: an empty roles table, every user as before and without a role, the other tables untouched |
| `MigrationRunner.CreateRoles.Down` | app/src/database/migrations/1784300000000-CreateRoles.ts:87-93 | leaves what the older schema holds |
| `AccountsSchema.ConstraintsAreMigrated` | app/src/database/migrations/1784300000000-CreateRoles.ts:47-84 | the constraints assumed of tenants, roles and users hold exactly if their rows are a valid database of the migrated schema |
| `Text.StringifyReads` | app/src/database/seed-admin.ts:25 | JSON.stringify of any string array, lone surrogates included, is read back to the array (section 7 of RFC 8259) |
| `Text.StringifyInjective` | app/src/database/seed-admin.ts:25 | so equal texts mean equal arrays |
| `Permissions.AscendingUnique` | app/src/database/seed-admin.ts:25 | a multiset of strings has one ascending arrangement, so any sort gives the same |
| `Permissions.UpToDateIffSame` | app/src/database/seed-admin.ts:25 | the comparison of sorted JSON texts compares permissions as multisets |
| `Permissions.ColumnRoundTrip` | app/src/database/entities/role.entity.ts:19-20 | the comma-separated column gives a list back, even up to order, exactly if no element holds a comma and the list is not one empty string |
| `Permissions.StoredMembership` | app/src/rbac/roles.service.ts:13-24 | a stored role lists exactly the permissions it was created with under the same condition |
| `Seed.EnsureRoleUpserts` | app/src/database/seed-admin.ts:21-29 | a role is rewritten exactly if its permissions differ from the target as multisets; afterwards they agree exactly if the column can hold the target |
| `Seed.PartialRun` | app/src/database/seed-admin.ts:73-83 | wherever a run stops the constraints hold, finished stages are settled, and only rows it drew ids for were added |
| `Seed.WritesNothingIffSeeded` | app/src/database/seed-admin.ts:73-83 | a run writes nothing exactly if the database is already seeded, and a finished run always leaves it seeded |
| `Seed.SecondSeedWritesNothing` | app/src/database/seed-admin.ts:73-83 | idempotence |
| `Seed.RerunResumes` | app/src/database/seed-admin.ts:73-83 | a run that stopped after any stage and was started again ends where one uninterrupted run would have |
| `Seed.RunKeeps` | app/src/database/seed-admin.ts:39-50 | finished or not, a run changes no password hash, no tenant of a user, no role already assigned and no unrelated row |
| `SeedScript.Script.EnsureTenant` | app/src/database/seed-admin.ts:73-77 | under any failures the tenants are as before or as the stage makes them |
| `SeedScript.Script.EnsureRole` | app/src/database/seed-admin.ts:15-30 | the same for one role; a write happened exactly if it was not up to date |
| `SeedScript.Script.EnsureUser` | app/src/database/seed-admin.ts:32-52 | the same for one user |
| `SeedResults.RunGives` | app/src/database/seed-admin.ts:79-83 | a finished run leaves the admin name with the admin role and the approver name with the approver role, of the tenant asked for and with their permissions, whether the user was there without a role or was created; whoever had a role is as before |
| `SeedResults.EnvLogsIn` | app/src/database/seed-admin.ts:55-58 | a user the run created logs in with the password of its own variable exactly if that password matches the hash drawn for it |
| `SeedScript.Script.Seed` | app/src/database/seed-admin.ts:54-87 | which environments are refused, and that a refused one writes nothing; otherwise the database is that of the finished stages, and on success, in terms of the variables themselves, each name has its own role of the tenant named, or of the default one if that is unset; the writes are counted |
| `RolesServices.RolesService.Create` | app/src/rbac/roles.service.ts:13-16 | a role is saved exactly if its tenant exists and has no role of that name, and the row saved is the role returned; hasPermission then answers as created under the column's condition |
| `Access.GrantedIff` | app/src/rbac/rbac.guard.ts:26-58 | a token got by logging in is granted a permission, at any later time, exactly if its user's one role then belongs to the user's own tenant and lists it |
| `Access.LoginIff` | app/src/auth/auth.service.ts:12-25 | a login succeeds exactly for a username of some user with a password that matches that user's hash; the token is that user's, of its own tenant; every refusal is the same |
| `Access.CanActivateIff` | app/src/rbac/rbac.guard.ts:26-58 | a route without a permission is open to every request, any other exactly to an authenticated user whose role is of the token's tenant and lists it; and who is told that they are not authenticated or lack the permission |
| `Access.CreatedUserLogsIn` | app/src/users/users.service.ts:24-28 | a user just created logs in with exactly the passwords that match its hash, as itself and in its tenant, and is refused every permission |
| `Access.NobodyHoldsBoth` | app/src/database/seed-admin.ts:79-83 | after seeding two new usernames, and after anything later, each is granted exactly its constant permissions, so neither both po.create and po.approve |
| `Access.SeededUsersLogIn` | app/src/auth/auth.service.ts:12-25 | after seeding two new usernames each logs in with its own password as its own user, in the tenant of its role |
| `Access.ForeignUserStaysOut` | app/src/rbac/rbac.guard.ts:48-51 | a same-named user of another tenant gets the role from the script and is then refused every permission for ever |
| `Access.AbroadAfterIff` | app/src/database/seed-admin.ts:39-48 | a finished run leaves a user with a role of another tenant if and only if it had one before, or existed without a role under one of the two usernames in a tenant of another name |
| `Tenancy.TenantIsolation` | app/src/tenancy/tenant-scoped.subscriber.ts:26-38 | over any interleaving and any contents of the database every entity received for a validated token has no tenant or the innermost bound one, unless that is empty; the token's own if the handler binds none |
| `Tenancy.KeepsToItsTenantIff` | app/src/tenancy/tenant-scoped.subscriber.ts:26-38 | exactly the handlers all of whose loads lie in an innermost scope of the token's own tenant receive only that tenant's entities, over all interleavings and all contents of the database |
| `Tenancy.OtherScopeIsOpen` | app/src/tenancy/tenant-context.ts:10-12 | a load in a scope of any other tenant, or of the empty one, can bring a stranger's entity |
| `Tenancy.OnlyCrossTenantBlocked` | app/src/tenancy/tenant-scoped.subscriber.ts:33-36 | a load is refused only if it crosses tenants |
| `Tenancy.RefusedLoadEnds` | app/src/tenancy/tenant-scoped.subscriber.ts:33-36 | a refused load hands nothing over and ends the code that awaited it |
| `Tenancy.AnswersAreOwn` | app/src/tenancy/tenant-context.ts:14-20 | getTenantId answers with the asking request's innermost tenant, never another request's |
| `Tenancy.EmptyScopeIsOpen` | app/src/tenancy/tenant-scoped.subscriber.ts:33-36 | a reachable run in which a scope of the empty tenant lets another tenant's entity through |
| `TenancyServices.TenantScopedSubscriber.constructor` | app/src/tenancy/tenant-scoped.subscriber.ts:18-24 | registers on both data sources, twice if they are one |
| `TenancyServices.TenantScopedSubscriber.AfterLoad` | app/src/tenancy/tenant-scoped.subscriber.ts:26-38 | throws exactly for an entity of a tenant other than a bound non-empty one |
| `TenancyServices.Process.Bind` | app/src/tenancy/tenant-context.ts:10-12 | run restores the store, whether or not its code throws, and what the code leaves behind is what lexical binding says |
| `TenancyServices.Process.Execute` | app/src/tenancy/tenant-context.ts:10-24 | the mutable store implements lexical binding for any code with nested scopes, awaits and spawned work |
| `TenancyServices.Process.Intercept` | app/src/tenancy/tenant-context.interceptor.ts:18-37 | the handler runs under the user's tenant, and nothing stays bound after the call |
| `TenancyServices.Process.Turn` | app/src/tenancy/tenant-scoped.subscriber.ts:26-38 | a continuation sees the store it captured, and a refused load ends its code |
| `TenancyServices.Process.Serve` | app/src/tenancy/tenant-context.interceptor.ts:18-37 | any interleaving of requests and continuations is a run of the lexical model |

## Left out

- The order in which RabbitMQ hands out ready messages: ready is a set, so every order is covered.
- Parseable messages without the producer's shape: what findOne does with an undefined id is library behaviour.
- Fairness is assumed, not derived: deliveries, answers and handler segments are not put off for ever, a channel that holds an abandoned message is lost at some time (RabbitMQ closes it after its consumer timeout), and a consumer is connected time and again.
- A consumer cancelled by the broker (a null message), and shutdown hooks: the attempt does nothing.
- The 2 s timeout is a nondeterministic choice; clocks and timestamps are not modelled.
- `TasksService.findAll` and the other replica reads: they only read, and may lag.
- Uuids and random ids are ids not in use; distinctness is assumed of them.
- bcrypt, JWT signing and verification: a password matches a hash by an arbitrary relation, the hash of a new password is drawn with the ids of the run, and a verified token carries the claims it was signed with.
- TypeORM: changeColumn with an unchanged type keeps the data, simple-array joins with commas, and each save is one atomic statement outside an explicit transaction.
- AsyncLocalStorage: a continuation inherits the store current when it is created; how Node does this is not modelled.
- Throws inside spawned work end that work only; who awaits it is not modelled.
- The seed script's awaits interleaved with other writers: a run is alone but may stop at any call.
- Column values in a migration are uninterpreted texts, names are numbers, and defaults are not evaluated except the default tenant's id and time.
- Schema.Exec: refuses a statement by checking the whole result, where PostgreSQL checks only what the statement can break.
- PipelineServices.QueueConsumerService.HandleMessage: schedules skip steps that are not enabled when their turn comes.
- Workflow rows hold one payload shape besides orders; deletes and the vendors table are not modelled.
- The pool is one for all calls, as PgBouncer's is for all processes; that each process also has a smaller pool of its own, and the order in which waiters are served, are not modelled. A timeout is a rejected operation; the application configures none. A lookup or an autocommitted insert holds its client within one step.
- Workflow reads of users and roles are outside the transaction's lock, as in the listing, so a role may change after the check.
- The idempotency interceptor of erp-plan-4-idempotency.md: its completing save carries no id, so its replay is not decided by the listing.
- Master data, controllers, DTO validation, throttling, health, metrics, logging, nginx and the client.

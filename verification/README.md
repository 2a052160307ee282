# cc-tunnel: verified models of its state machines

cc-tunnel runs Claude CLI sessions in containers, locally or on GCE VMs, and streams their output into a
database that the web frontend polls. This project models the parts of it whose correctness depends on
order and failure, and proves what they keep over every input, every interleaving and every choice of failing
calls. `dafny verify dfyconfig.toml` checks it.

Each machine comes in two forms: a step model, over which the theorems about whole runs are proved, and the
imperative code with its fields, loops and calls, whose methods return the steps they took (as ghost values) and
are proved to be runs of the step model that leave the tables, containers or rows as the run says. A remote
call or database call is a nondeterministic success or failure; a call that fails changes nothing, except that
a container can be created and not started. Failed calls are counted, and the contracts of the main operations
say both what any failure leaves behind and that without one the operation succeeds.

| files | models |
|---|---|
| `Wrappers`, `Remote` | result shapes; calls of which only outcome and address matter; a clock |
| `Containers` | the containers behind each VM's container-manager, and the instances behind GCE |
| `Tables`, `Repository` | `vm_instances` and `session_endpoints`: rows, keys, and the effect of each SQL statement |
| `Allocator` | any number of session creators, one sweep, conversation deletes and VM reconciliation, interleaved call by call |
| `MaxContainers`, `SessionLimit`, `Counters`, `IdleStamp`, `Ports`, `VmStatus`, `SweepSafety`, `Paths` | theorems over all runs of `Allocator`, and the pieces of its concrete runs |
| `PortRace` | runs of `Allocator` with the containers beside the tables |
| `Provider`, `Cleanup`, `Reconcile` | the `dockergce` provider's code over the tables |
| `ZeroAgents`, `SelfReaper` | the zero-agents window automaton and container-manager's in-memory version of it |
| `Aggregator`, `StreamMeaning`, `StreamAggregator` | what a stream of agent events adds up to, what that is in terms of the stream, and the heap object that computes it |
| `Persist`, `StoredTurn`, `MessageService`, `History` | worker, ticker and pollers over one message row; what the row holds at each point; the code that drives it; what the next turn reads back |
| `Poller` | the frontend's polling hook, and completion end to end |
| `Sessions`, `SessionLease`, `SessionManager` | the local cache of session containers and its idle timers |
| `FanOut`, `Login` | the PTY output fan-out and the login fields of cc-remote-agent |

## Where the code does less than it says

Each item names the theorem that gives the exact condition, or the concrete run.

- MaxContainers limits the counter, in every configuration with a port to give, exactly while slow paths do not overlap
  (`MaxContainers.LimitKeptExactly`); it limits the sessions only if, besides, the counter covers them
  (`SessionLimit.SessionsKeptExactly`, `SessionLimit.SessionsBounded`, `MaxContainers.TwoCreatorsExceedTheLimit`).
- A counter that is exact loses that without any failure when a row falls idle between its insert and its increment
  (`Counters.UncountedSwept`, `Counters.CarefulRunsStayExact`).
- Marking an unreachable VM `unhealthy` is refused by the CHECK constraint of migration 005, so under the shipped
  schema no VM is ever demoted and the first VM that does not answer ends the pick
  (`VmStatus.DemotionWorksExactly`, `Provider.ShippedPickPingsOnce`).
- `CleanupOrphans` can have the instance of a VM with a live session deleted, since GCE is asked before the foreign key
  is: after a single failed increment, row delete or VM row delete, and with no call failing when a creator's insert
  and increment lie around the listing of idle VMs, or its insert between listing and deletion
  (`SweepSafety.SparesHostsExactly`: exactly in these five cases).
- `reaper.go:136-137` says probe failures cannot accumulate time; time spent in failing probes does count
  (`ZeroAgents.FailureTimeCountsUnlessNoneFailed`).
- In `ReconcileVMs` a lost clear of `zero_agents_since` lets a VM be deleted that had an agent in between
  (`Reconcile.DeletionJustifiedExactly`). `docs/docker-gce-design.md:515` and `:525` want it to bring rows of VMs that
  are gone from GCE into line; the code skips every VM it cannot reach (`Reconcile.SilentVmKeepsItsRow`).
- `repository.go:479-484` says the loser of a port race retries. An attempt is retried exactly when its container
  answered and its insert failed (`Provider.GceProvider.TryPlace`); but the race is lost when the container cannot start,
  which ends the slow path and leaves a container that keeps the conversation off that VM
  (`PortRace.RaceIsNotRetried`, `PortRace.StrayBlocks`).
- After a panic in the agent call the conversation is marked completed and the ticker goes on writing
  (`Persist.PanicLeavesRowChanging`).
- A poll overtaken by the next one delivers older messages after the completion (`Poller.CompletionIsLastExactly`).
- The local manager's "container is dead, remove stale entry and recreate" cannot succeed while the dead container is
  in the engine, since nothing removes it and its name stays in use; one failed inspection of a live container has
  the same effect (`Sessions.RecreationWorksExactly`, `Sessions.OrphanBlocksForever`).
- "Stopped only after IdleTimeout" fails after a replacement, and when a session is used while the timer's callback
  waits (`Sessions.StopsOnlyIdleExactly`).
- A local session whose stop fails keeps its entry and container with its timer disarmed: unless it is asked for again
  or stopped by a caller it is never stopped (`SessionLease.FailedStopForgets`, `SessionLease.ForgottenStays`). Two
  conversations whose ids agree in the first eight characters exclude each other (`SessionLease.SharedNameBlocks`).
- A VM on which no session was ever counted is never listed as idle (`IdleStamp.IdleExactly`); only the zero-agents
  window removes it.
- A login cancelled and restarted quickly loses its input when the first one's goroutine ends
  (`Login.InputReachesExactly`).

## Model

| member | source | states |
|---|---|---|
| `Tables.SmallestFreeMeaning` | apps/cc-tunnel/internal/db/repository.go:485-506 | the port the query returns is in the range, free, and every smaller one of the range is taken; 0 means exactly that all are taken |
| `Tables.TakenPortsNeedEndpoints` | apps/cc-tunnel/internal/db/migrations/008_session_endpoints_unique_vm_port.sql:2-3 | k taken ports in a row need k distinct endpoint rows |
| `Tables.PortPigeonhole` | apps/cc-tunnel/internal/db/repository.go:485-506 | with n rows on a VM the port returned is among the first n + 1 of the range, and one is returned whenever the range has more than n |
| `Repository.Database.CreateVMInstance` | apps/cc-tunnel/internal/db/repository.go:254-262 | adds one provisioning row with a new id and count 0, or changes nothing |
| `Repository.Database.UpdateVMInstanceStatus` | apps/cc-tunnel/internal/db/repository.go:282-285 | sets the status of the row if there is one; a status the CHECK constraint does not list never succeeds on an existing row |
| `Repository.Database.UpdateVMInstanceIP` | apps/cc-tunnel/internal/db/repository.go:287-290 | sets the address of the row and nothing else |
| `Repository.Database.IncrementVMActiveContainers` | apps/cc-tunnel/internal/db/repository.go:292-296 | adds one to the counter and clears idle_since; no other row changes |
| `Repository.Database.DecrementVMActiveContainers` | apps/cc-tunnel/internal/db/repository.go:298-304 | takes one off, not below zero, and stamps idle_since with the database's time exactly when the counter was at most one |
| `Repository.Database.GetVMInstance` | apps/cc-tunnel/internal/db/repository.go:264-271 | the row under the id, or that there is none |
| `Repository.Database.GetAvailableVMInstance` | apps/cc-tunnel/internal/db/repository.go:306-316 | a running VM with room and no fuller such VM; "no row" exactly when none has room |
| `Repository.Database.ListIdleVMInstances` | apps/cc-tunnel/internal/db/repository.go:340-362 | exactly the running VMs counted empty and idle for more than the timeout at the database's time, each once |
| `Repository.Database.ListRunningVMInstances` | apps/cc-tunnel/internal/db/repository.go:368-390 | each running VM once, with its row as it was read |
| `Repository.Database.SetVMZeroAgentsSince` | apps/cc-tunnel/internal/db/repository.go:395-399 | sets or clears the window of one VM and nothing else |
| `Repository.Database.DeleteVMInstance` | apps/cc-tunnel/internal/db/migrations/006_create_session_endpoints.sql:5 | a row an endpoint refers to is never deleted: the foreign key has no ON DELETE action |
| `Repository.Database.CreateSessionEndpoint` | apps/cc-tunnel/internal/db/repository.go:421-429 | succeeds only if VM and conversation exist and neither the conversation nor the (VM, port) pair is taken; then adds exactly that row under a new id, active at the database's time |
| `Repository.Database.GetSessionEndpointByConversationID` | apps/cc-tunnel/internal/db/repository.go:431-438 | the row of that conversation, or that it has none |
| `Repository.Database.ListIdleSessionEndpoints` | apps/cc-tunnel/internal/db/repository.go:450-472 | exactly the running rows last active longer than the timeout before the database's time, each once |
| `Repository.Database.DeleteSessionEndpoint` | apps/cc-tunnel/internal/db/repository.go:474-477 | removes that row, if it is there, and no other |
| `Repository.Database.GetSmallestAvailablePortOnVM` | apps/cc-tunnel/internal/db/repository.go:485-506 | the loop over the range finds the smallest free port, or 0 |
| `Allocator.RunKeepsInv` | apps/cc-tunnel/internal/provider/dockergce/provider.go:250-367 | over every interleaving and any failures: unique keys and foreign keys hold, ids are never reused, creators hold VMs that were created, and what a sweep has listed still belongs to the VM it read |
| `Allocator.StepKeepsInv` | apps/cc-tunnel/internal/provider/dockergce/provider.go:250-367 | each single repository or remote call keeps that |
| `Allocator.CleanerKeepsInv` | apps/cc-tunnel/internal/provider/dockergce/provider.go:569-604 | each step of a sweep keeps that |
| `Allocator.AmbientKeepsInv` | apps/cc-tunnel/internal/db/repository.go:114-117 | conversation inserts and deletes (with their cascade), activity updates and reconciliation keep that |
| `Allocator.RowChange` | apps/cc-tunnel/internal/db/repository.go:282-304 | what any step does to the row of a VM that stays: six kinds of step change it, each one column group |
| `Allocator.NewRow` | apps/cc-tunnel/internal/db/repository.go:254-262 | a VM row appears only by CreateVMInstance, empty and provisioning |
| `Allocator.EpsChange` | apps/cc-tunnel/internal/db/repository.go:421-477 | only an insert, a row delete, a conversation delete and an activity update touch endpoint rows |
| `Allocator.VmNeverReturns` | apps/cc-tunnel/internal/db/repository.go:254-262 | a VM row that is gone never comes back under its id |
| `MaxContainers.RunKeepsCapacity` | apps/cc-tunnel/internal/provider/dockergce/provider.go:250-367 | with at most C overlapping slow paths, counter plus creators under way on a VM stay within MaxContainers - 1 + C in every reachable state |
| `MaxContainers.StepKeepsCapacity` | apps/cc-tunnel/internal/provider/dockergce/provider.go:373-413 | each step keeps that bound, whichever VM is picked |
| `MaxContainers.TwoCreatorsExceedTheLimit` | apps/cc-tunnel/internal/provider/dockergce/provider.go:377 | for every MaxContainers, and a range of more ports than that: from a state with exact counters, two creators that read the same VM with one place left both get a row and a count on it |
| `MaxContainers.LimitKeptExactly` | apps/cc-tunnel/internal/provider/dockergce/provider.go:250-367 | for every configuration, every counter is kept within MaxContainers on every run if and only if at most one slow path is under way at a time, or the port range is empty |
| `MaxContainers.OneAtATime` | apps/cc-tunnel/internal/provider/dockergce/provider.go:250-367 | one slow path at a time keeps every VM within MaxContainers, whatever fails and whatever else runs |
| `MaxContainers.NothingPlaced` | apps/cc-tunnel/internal/provider/dockergce/provider.go:299-301 | with an empty port range no session is ever placed and no counter rises |
| `SessionLimit.SessionsBounded` | apps/cc-tunnel/internal/provider/dockergce/provider.go:250-367 | on every run without a lost count a VM hosts at most MaxContainers - 1 + C sessions, with at most C overlapping slow paths, and one more whose row a sweep has counted off and not yet deleted |
| `SessionLimit.UncountedOverfills` | apps/cc-tunnel/internal/provider/dockergce/provider.go:357-359 | one failed increment, one slow path at a time, and a VM hosts MaxContainers + 1 sessions while its counter reads MaxContainers |
| `SessionLimit.SessionsKeptExactly` | apps/cc-tunnel/internal/provider/dockergce/provider.go:250-367 | with more ports than MaxContainers, the sessions of every VM are kept within it on every run if and only if no two slow paths overlap and no write fails, or there is no slow path at all |
| `Counters.StepBalance` | apps/cc-tunnel/internal/provider/dockergce/provider.go:339-359 | conservation: every step changes (counter + operations in progress - endpoint rows) of a VM by exactly its drift, which is zero for all but five kinds of step |
| `Counters.BalanceLaw` | apps/cc-tunnel/internal/provider/dockergce/provider.go:339-359 | over any run, with any failures, the balance of a VM moves by the sum of the drifts |
| `Counters.NewVmBalanced` | apps/cc-tunnel/internal/provider/dockergce/provider.go:416-440 | a VM added by any step starts with balance zero |
| `Counters.CreatorBalance` | apps/cc-tunnel/internal/provider/dockergce/provider.go:339-359 | the insert and the increment of a creator cancel; only a failed increment drifts |
| `Counters.CleanerBalance` | apps/cc-tunnel/internal/provider/dockergce/provider.go:585-588 | the decrement and the row delete of a sweep cancel; only a failed or saturated decrement and a failed row delete drift |
| `Counters.DropBalance` | apps/cc-tunnel/internal/db/repository.go:114-117 | deleting a conversation leaves the counter one too high exactly when its row was not already in a sweep |
| `Counters.RunKeepsNeverUnder` | apps/cc-tunnel/internal/provider/dockergce/provider.go:339-359 | while no increment and no row delete fails, no counter (corrected for what is in progress) is below its endpoint rows, in any reachable state |
| `Counters.IdleVmHasNoRows` | apps/cc-tunnel/internal/provider/dockergce/provider.go:591-601 | then a VM the sweep lists as idle has no endpoint row, unless a creator is between insert and increment on it |
| `Counters.CarefulRunsStayExact` | apps/cc-tunnel/internal/provider/dockergce/provider.go:585-589 | with, besides, no conversation deleted, no decrement failing, and each creator that has yet to count its row having one other than the row the sweep counts off, the counter stays exact |
| `Counters.SweepsCountedIsCareful` | apps/cc-tunnel/internal/provider/dockergce/provider.go:585-589 | from a state in which such creators have their rows it is enough that no row is swept before it was counted: they keep them |
| `Counters.UncountedSwept` | apps/cc-tunnel/internal/provider/dockergce/provider.go:585-589 | else exactness is lost, with no write failing: a row that falls idle before its increment is counted off at zero |
| `Counters.DecrementNotSaturated` | apps/cc-tunnel/internal/db/repository.go:298-304 | an exact counter is positive when a sweep counts off a row that was counted |
| `IdleStamp.RunStamps` | apps/cc-tunnel/internal/db/repository.go:292-304 | over every run, a VM's counter is what was counted in and not yet off since its insert, never below zero, and idle_since is the time of the last count-off while that is zero, and null else |
| `IdleStamp.IdleExactly` | apps/cc-tunnel/internal/db/repository.go:340-362 | so a VM is listed as idle if and only if it is running, some session was counted on it, all were counted off, and the last before the threshold |
| `IdleStamp.EmptiedVmIsListed` | apps/cc-tunnel/internal/provider/dockergce/provider.go:591-593 | a VM emptied by a count-off is listed exactly once IdleTimeout has passed since |
| `IdleStamp.EndpointChange` | apps/cc-tunnel/internal/db/repository.go:421-477 | what any step does to an endpoint row: the insert gives it all its values, and only activity in its conversation changes one |
| `IdleStamp.LastActivityExactly` | apps/cc-tunnel/internal/db/repository.go:445-448 | over every run, a session's last_activity is its insert or the last activity in its conversation |
| `IdleStamp.SessionIsListedExactly` | apps/cc-tunnel/internal/provider/dockergce/provider.go:571-574 | so a sweep lists it if and only if IdleTimeout has passed since that |
| `Ports.PortBound` | apps/cc-tunnel/internal/provider/dockergce/provider.go:295-301 | a creator about to choose gets a port within MaxContainers of the range start (one more per further overlapping creator, and one if the sweep has counted off a row of that VM and not deleted it), and never "no free port" if the range is that long |
| `Ports.RunKeepsPorts` | apps/cc-tunnel/internal/provider/dockergce/provider.go:289-361 | over every run without lost counts, sweeps included, all allocated ports lie within that bound, if only no port is chosen between a count-off on its VM and the row delete, and within one more if it is; two rows of one VM never share a port |
| `Ports.ChoiceInTheGap` | apps/cc-tunnel/internal/provider/dockergce/provider.go:585-588 | a single creator that chooses in that gap gets the port beyond the bound |
| `VmStatus.StatusOnlyRises` | apps/cc-tunnel/internal/provider/dockergce/provider.go:386 | in every interleaving a status only moves provisioning, running, unhealthy; an unhealthy VM is never again picked, listed as idle, or listed for reconciliation |
| `VmStatus.StepRaisesStatus` | apps/cc-tunnel/internal/provider/dockergce/provider.go:465 | each step keeps a status or raises it |
| `VmStatus.DemotionWorksExactly` | apps/cc-tunnel/internal/db/migrations/005_create_vm_instances.sql:7-8 | some run marks a VM unhealthy, from a state in which none is, if and only if the CHECK constraint admits the status |
| `VmStatus.ShippedSchemaNeverDemotes` | apps/cc-tunnel/internal/db/migrations/005_create_vm_instances.sql:7-8 | under the constraint that is shipped no run ever marks a VM unhealthy |
| `SweepSafety.RunReapsEmpty` | apps/cc-tunnel/internal/provider/dockergce/provider.go:591-601 | on every interleaving with slow paths: with no lost count, no VM listed while an insert on it is uncounted, no insert on a VM of the list being reaped, and no empty VM's row kept, every VM that GCE was asked to delete hosts no session |
| `SweepSafety.StepSpares` | apps/cc-tunnel/internal/provider/dockergce/provider.go:591-601 | each step keeps that, for the VMs asked for and those still to be asked for |
| `SweepSafety.ListedTooEarly` | apps/cc-tunnel/internal/provider/dockergce/provider.go:339-361 | a sweep that lists a VM between a creator's insert and its increment has the VM of a live session deleted, with no call failing before GCE is asked |
| `SweepSafety.InsertedTooLate` | apps/cc-tunnel/internal/provider/dockergce/provider.go:591-601 | so it does when a creator that picked the VM before it was listed inserts and counts its row before GCE is asked |
| `SweepSafety.PickedAfterwards` | apps/cc-tunnel/internal/provider/dockergce/provider.go:597-600 | and when the row of a VM stays after GCE was asked: the VM can still be picked |
| `SweepSafety.LostCount` | apps/cc-tunnel/internal/provider/dockergce/provider.go:357-359 | and after one failed increment, or one failed row delete, for a session that no sweep listed and that was used a moment before |
| `SweepSafety.FailedRowDelete` | apps/cc-tunnel/internal/provider/dockergce/provider.go:585-588 | a row delete that fails after its count-off leaves the counter one short of the rows |
| `SweepSafety.FailedIncrement` | apps/cc-tunnel/internal/provider/dockergce/provider.go:357-359 | so does an increment that fails after the insert |
| `SweepSafety.SweptAway` | apps/cc-tunnel/internal/provider/dockergce/provider.go:577-589 | then the next sweep takes the idle session away and the VM counts as empty, with the other session on it |
| `SweepSafety.SparesHostsExactly` | apps/cc-tunnel/internal/provider/dockergce/provider.go:569-604 | on every interleaving of sweeps and slow paths under a rising clock, no VM that hosts a session row is deleted if and only if none of five things can happen: a failed increment, a failed row delete, a VM row kept after its instance was asked for, a VM listed with an uncounted insert on it, an insert on a VM of the list being reaped; and it takes the same five for live sessions |
| `Containers.Fleet.RunAgent` | apps/container-manager/internal/docker/manager.go:104-171 | needs a free container name; starts only on a free host port; a container that was created and not started stays behind under its name |
| `Containers.Fleet.StopContainer` | apps/container-manager/internal/docker/manager.go:215-222 | the container named is no longer running, or the call failed and nothing changed; no other changes |
| `Containers.Fleet.RemoveContainer` | apps/container-manager/internal/docker/manager.go:224-233 | removes exactly the container named, running or not, or nothing |
| `Containers.Fleet.ListAgents` | apps/container-manager/internal/docker/manager.go:190-205 | the containers that run on the VM, or no answer |
| `Provider.GceProvider.ProbeVm` | apps/cc-tunnel/internal/provider/dockergce/provider.go:382-406 | one candidate: answered, or marked unhealthy, or the mark failed; a run of the allocator with exactly that effect |
| `Provider.GceProvider.TryFullest` | apps/cc-tunnel/internal/provider/dockergce/provider.go:377-406 | one round: the candidate was the fullest with room at that read |
| `Provider.GceProvider.PickOnce` | apps/cc-tunnel/internal/provider/dockergce/provider.go:376-407 | one round on top of the earlier ones keeps: no VM pinged in vain is a candidate again, and the rows differ only by demotions |
| `Provider.GceProvider.PickHealthyAvailableVM` | apps/cc-tunnel/internal/provider/dockergce/provider.go:373-413 | at most five probes; a pick was running, with room, the fullest such VM at its read, and answered; every VM demoted had failed client construction or its ping; no pinged VM is tried twice; if no call fails a VM is picked exactly when one has room, and the pick is given up only after five probes, when no VM with room is left, when a read fails, or when a VM pinged in vain could not be marked |
| `Provider.ShippedPickPingsOnce` | apps/cc-tunnel/internal/provider/dockergce/provider.go:399-405 | under the shipped constraint a pick changes no row and its first ping is its last: the first VM that does not answer ends the pick |
| `Provider.GceProvider.CreateGceVm` | apps/cc-tunnel/internal/provider/dockergce/provider.go:416-440 | adds one empty VM row with a new id, the name and address of the instance GCE created; or gives up with no row changed, and some call failed |
| `Provider.GceProvider.WaitForVMReady` | apps/cc-tunnel/internal/provider/dockergce/provider.go:444-487 | returns the address under which GCE reported the instance running, not empty, which is the address its container-manager was asked for under; if no write failed the VM's row holds exactly that address and is running; whatever fails, nothing but address and status of that row changes |
| `Provider.GceProvider.AwaitRunning` | apps/cc-tunnel/internal/provider/dockergce/provider.go:447-461 | polls until GCE reports that instance running with an address, and returns it, or times out |
| `Provider.GceProvider.WriteAddress` | apps/cc-tunnel/internal/provider/dockergce/provider.go:463-464 | the address write: the row holds the address given unless the write failed |
| `Provider.GceProvider.Boots` | apps/cc-tunnel/internal/provider/dockergce/provider.go:463-465 | the two writes give the row address and running status, and change nothing else |
| `Provider.GceProvider.WriteReady` | apps/cc-tunnel/internal/provider/dockergce/provider.go:463-465 | if no write fails the VM is running |
| `Provider.GceProvider.AwaitManager` | apps/cc-tunnel/internal/provider/dockergce/provider.go:463-487 | the status write, and the wait for the container-manager at the address given |
| `Provider.GceProvider.StartAgent` | apps/cc-tunnel/internal/provider/dockergce/provider.go:295-336 | a container that answers runs on the smallest free port, asked for at the address given; else one is left behind exactly when it did not start, or did not answer and was not removed |
| `Provider.GceProvider.RunAndWait` | apps/cc-tunnel/internal/provider/dockergce/provider.go:307-336 | one container is asked for; one that does not become ready is discarded |
| `Provider.GceProvider.AwaitAgent` | apps/cc-tunnel/internal/provider/dockergce/provider.go:332-336 | a container that does not answer is stopped and removed, and stays exactly when the removal failed |
| `Provider.GceProvider.Discard` | apps/cc-tunnel/internal/provider/dockergce/provider.go:344-345 | stop, then remove: both are asked for, the removal also when the stop failed, and exactly that container is gone unless the removal failed |
| `Provider.GceProvider.TryPlace` | apps/cc-tunnel/internal/provider/dockergce/provider.go:291-355 | one attempt: there is another one if and only if the container started and answered, the insert failed, attempts are left and the wait was not cut short; a container refused or not started ends the loop; exactly one container and one row, on equal ports, or rows and counters unchanged and a container left exactly when it did not start or was not removed |
| `Provider.GceProvider.Record` | apps/cc-tunnel/internal/provider/dockergce/provider.go:338-355 | the insert; a failed one discards the container before anything else, and is retried if and only if attempts are left and the wait was not cut short |
| `Provider.GceProvider.AfterFailedInsert` | apps/cc-tunnel/internal/provider/dockergce/provider.go:346-354 | another attempt only after a failed insert, and only while attempts are left |
| `Provider.GceProvider.RetryPlace` | apps/cc-tunnel/internal/provider/dockergce/provider.go:289-355 | at most three attempts, of which all but the last started their container and failed to insert; success leaves exactly one container and one row, on equal ports; an error leaves no row, and a container exactly when one did not start or was not removed; it fails only if some call failed or the VM has no free port, and for the insert only after the third attempt |
| `Provider.GceProvider.PlaceAndCount` | apps/cc-tunnel/internal/provider/dockergce/provider.go:289-361 | and the container is counted once; a failed increment leaves row and container in place, uncounted |
| `Provider.GceProvider.CountIn` | apps/cc-tunnel/internal/provider/dockergce/provider.go:357-359 | the increment, which the row survives when it fails |
| `Provider.GceProvider.FindVm` | apps/cc-tunnel/internal/provider/dockergce/provider.go:267-279 | a VM with room and the address to use: picked, with that address in its row, or created and ready; no endpoint row or counter changes |
| `Provider.GceProvider.NewVm` | apps/cc-tunnel/internal/provider/dockergce/provider.go:269-278 | a new VM that became ready is empty; if no write failed its row is running and holds the address GCE reported |
| `Provider.GceProvider.BootsNew` | apps/cc-tunnel/internal/provider/dockergce/provider.go:416-465 | inserting a VM and writing its address and status disturbs no other row, and leaves it empty |
| `Provider.GceProvider.Locate` | apps/cc-tunnel/internal/provider/dockergce/provider.go:264-279 | the slow path up to a VM: it has room, and if no call failed it is the fullest with room, or new because none has |
| `Provider.GceProvider.SlowPath` | apps/cc-tunnel/internal/provider/dockergce/provider.go:264-361 | the slow path as a whole, as a run of the allocator that starts and ends outside it |
| `Provider.GceProvider.Once` | apps/cc-tunnel/internal/provider/dockergce/provider.go:257-362 | the function singleflight runs: reuse a running row found meanwhile, or the slow path |
| `Provider.GceProvider.GetOrCreateEndpoint` | apps/cc-tunnel/internal/provider/dockergce/provider.go:250-367 | a run of the allocator; a conversation with a running row gets that row, with nothing else done, unless a read fails; else a success adds exactly one row, one count and one container, on the fullest VM with room, or on a new one if there is none, when no call failed; container-manager was asked at the address in the VM's row, and if no write failed a new VM's row is running and holds the address GCE reported, not empty; on an error other than a failed increment rows and counters are as before, and so are the containers, except for one left behind exactly when it did not start or was not removed; it fails only if some call failed or the VM chosen has no free port, which counters not under their rows and a range of MaxContainers ports exclude; one call on its own keeps the limit, and every counter as far from its rows as it was |
| `Provider.PlacedSurplus` | apps/cc-tunnel/internal/provider/dockergce/provider.go:339-359 | an inserted and counted row leaves counter minus rows unchanged on every VM |
| `Provider.UndisturbedSurplus` | apps/cc-tunnel/internal/provider/dockergce/provider.go:267-279 | so do demoting and adding VMs |
| `Provider.GceProvider.PortsSuffice` | apps/cc-tunnel/internal/provider/dockergce/provider.go:299-301 | with counters not under their rows and at least MaxContainers ports, every VM with room has a free port |
| `PortRace.CourseIsRun` | apps/cc-tunnel/internal/provider/dockergce/provider.go:250-367 | with the containers beside the tables, every course of events is a run of the allocator |
| `PortRace.FailureBlocksExactly` | apps/cc-tunnel/internal/provider/dockergce/provider.go:307-355 | a slow path that fails with its container keeps its conversation off that VM in every continuation without outside removal if and only if the container did not start or was not removed |
| `PortRace.StrayBlocks` | apps/cc-tunnel/internal/provider/dockergce/provider.go:307-329 | through all creators, sweeps, crashes and failures such a container keeps its conversation off that VM: every attempt there is refused and no row of it appears there, until someone outside removes it |
| `PortRace.RaceIsNotRetried` | apps/cc-tunnel/internal/db/repository.go:479-484 | two creators choose the same port; the second one's container is created and cannot start, its slow path ends with an error, and though the VM has room and the next port is free its name is held there, and every attempt of it refused, in every continuation without outside removal |
| `PortRace.SecondLoses` | apps/cc-tunnel/internal/provider/dockergce/provider.go:307-329 | while the first one's container runs on the port the second one's cannot start, so it never gets to the insert |
| `Cleanup.SweepOne` | apps/cc-tunnel/internal/provider/dockergce/provider.go:575-589 | one idle row: its container is asked to be removed and is gone, if its VM has an address and can be reached there, unless the removal failed; count-off tried, stamped with the database's time; row deleted or the pass ends |
| `Cleanup.SweepEndpoints` | apps/cc-tunnel/internal/provider/dockergce/provider.go:569-589 | lists exactly the sessions idle for IdleTimeout at the time of the listing, which is a reading of the database's clock within the pass; if the loop ends, exactly these are gone and each counter fell by its swept rows, not below zero, when every write succeeded; only containers of swept rows were touched, and a session used within IdleTimeout keeps row and container |
| `Cleanup.RecentAreKept` | apps/cc-tunnel/internal/provider/dockergce/provider.go:571-589 | a session used within IdleTimeout of the listing keeps its row, and its container unless an idle row names the same one |
| `Cleanup.ReapOne` | apps/cc-tunnel/internal/provider/dockergce/provider.go:596-601 | GCE is asked first, whatever the row delete then says; the row goes only if no endpoint refers to it |
| `Cleanup.ReapIdleVms` | apps/cc-tunnel/internal/provider/dockergce/provider.go:591-603 | asks for exactly the VMs idle for IdleTimeout at the time of that listing, again read within the pass; after an undisturbed pass none of them is left |
| `Cleanup.SweptOneMore` | apps/cc-tunnel/internal/provider/dockergce/provider.go:585-588 | each row swept moves the counters and the rows by exactly one |
| `Cleanup.CleanupOrphans` | apps/cc-tunnel/internal/provider/dockergce/provider.go:569-604 | the whole pass, as a run of the allocator: exactly the rows idle for IdleTimeout at its first listing go, and sessions used since keep row and container; exact counters stay exact; GCE is asked only for VMs that were idle for IdleTimeout before the pass, unless it took longer than that between its listings, and for no VM that hosts a session where no counter is under its rows and no creator is between insert and increment on it; if nothing fails it is complete, and unless a read, a call or the removal itself fails no container of a swept row is left on a VM with an address |
| `Cleanup.AskedAreFair` | apps/cc-tunnel/internal/provider/dockergce/provider.go:591-601 | a VM emptied by this pass is not asked for in it while the listings lie within IdleTimeout |
| `Cleanup.PassKeeps` | apps/cc-tunnel/internal/provider/dockergce/provider.go:569-604 | a pass of cleaning steps keeps counters from falling under their rows, and exact ones exact |
| `Cleanup.CleaningIsCareful` | apps/cc-tunnel/internal/provider/dockergce/provider.go:585-588 | a pass in which no write fails is careful in the sense of the exactness theorem |
| `ZeroAgents.DueExactly` | apps/container-manager/internal/selfreaper/reaper.go:138-179 | a deletion is asked for at a tick if and only if it sees zero agents and the window open there was opened, by a zero observation with no agent seen since, at least the timeout earlier |
| `ZeroAgents.SinceIsOpening` | apps/container-manager/internal/selfreaper/reaper.go:145-167 | the remembered start is the time of the first zero observation since an agent was last seen |
| `ZeroAgents.OpeningIsUnique` | apps/container-manager/internal/selfreaper/reaper.go:157-167 | a window has one opening |
| `ZeroAgents.FailuresInvisible` | apps/container-manager/internal/selfreaper/reaper.go:139-142 | dropping every failed probe from a trace changes neither the window nor any deletion |
| `ZeroAgents.FailureTimeCountsUnlessNoneFailed` | apps/container-manager/internal/selfreaper/reaper.go:136-137 | "a failing probe can never accumulate time" holds, for every timeout, if and only if no probe failed while the window was open |
| `ZeroAgents.FailureTimeCountsExample` | apps/container-manager/internal/selfreaper/reaper.go:136-137 | two zero readings ten minutes apart with only a failure between are a deletion |
| `ZeroAgents.DeletionComesDue` | apps/container-manager/internal/selfreaper/reaper.go:117-130 | if every probe from tick s on sees zero agents and ticks are at least Interval apart, every tick from s + ceil(Timeout / Interval) on asks for the deletion |
| `SelfReaper.Reaper.constructor` | apps/container-manager/internal/selfreaper/reaper.go:76-90 | non-positive interval and timeout become the defaults; the window is closed |
| `SelfReaper.Reaper.Tick` | apps/container-manager/internal/selfreaper/reaper.go:138-179 | moves the window as the automaton does, asks GCE to delete the instance given exactly when it does, and reports what happened |
| `SelfReaper.Reaper.Run` | apps/container-manager/internal/selfreaper/reaper.go:97-132 | asks GCE to delete its own instance, once on each due tick up to the first accepted one, and on none after it; identity errors ask for nothing |
| `SelfReaper.AskedExactlyWhenEmptyLongEnough` | apps/container-manager/internal/selfreaper/reaper.go:97-179 | every deletion asked for is justified by the trace of probes alone, and none is missed |
| `SelfReaper.DueFiringsComplete` | apps/container-manager/internal/selfreaper/reaper.go:117-130 | the list of due ticks is complete |
| `Reconcile.StoredIsSince` | apps/cc-tunnel/internal/provider/dockergce/provider.go:646-664 | whatever writes are lost, the window in the row is the automaton's on the observations with lost ones taken for failed probes |
| `Reconcile.AskedIsDue` | apps/cc-tunnel/internal/provider/dockergce/provider.go:666-678 | and GCE is asked exactly when the automaton asks on those |
| `Reconcile.ReliableMeansObserved` | apps/cc-tunnel/internal/provider/dockergce/provider.go:619-685 | with no lost write the stored window is the automaton's on the observations themselves |
| `Reconcile.DeletionJustifiedExactly` | apps/cc-tunnel/internal/provider/dockergce/provider.go:646-653 | a VM asked for was seen empty at least the timeout earlier, and no agent was seen since if and only if no clearing write was lost since |
| `Reconcile.LostClearDeletes` | apps/cc-tunnel/internal/provider/dockergce/provider.go:648-651 | one lost clear deletes a VM that had an agent in the meantime |
| `Reconcile.LostSetPostpones` | apps/cc-tunnel/internal/provider/dockergce/provider.go:659-662 | with no clear lost the stored window is never older than the exact one: lost writes only postpone |
| `Reconcile.ReconcileOne` | apps/cc-tunnel/internal/provider/dockergce/provider.go:625-682 | one VM: the count used is the number of containers that run on it, at a time within the call; the row is written exactly when the window moves, GCE asked exactly when due; a missing answer, a lost write or a refused delete is a failed call |
| `Reconcile.ReconcileVMs` | apps/cc-tunnel/internal/provider/dockergce/provider.go:619-685 | one pass over all running VMs: each row holds its window moved on by what was observed, GCE is asked for exactly the due VMs, and only their rows go; whatever fails, no VM on which a container runs is asked for or gets a window, and every VM asked for had its window open for the timeout; if nothing fails every running VM with an address that runs a container has its window closed, every empty one has it open, every empty one whose window had lasted the timeout is asked for, and the rows of all VMs asked for are gone; it ends early only if the listing or a row delete fails |
| `Reconcile.Observe` | apps/cc-tunnel/internal/provider/dockergce/provider.go:638-645 | client at the VM's address, then the number of containers that run there and the clock; no answer only for a VM without an address or when a call failed |
| `Reconcile.PassIsJustified` | apps/cc-tunnel/internal/provider/dockergce/provider.go:646-678 | a VM asked for runs no container, and its window has been open for the timeout |
| `Reconcile.CleanPassIsThorough` | apps/cc-tunnel/internal/provider/dockergce/provider.go:619-685 | without a failure no VM is overlooked: windows are closed or opened by what runs, and every VM due is deleted |
| `Reconcile.OnlyStampsMoveTheWindow` | apps/cc-tunnel/internal/db/repository.go:395-399 | nothing but this write moves a window, over every interleaving |
| `Reconcile.SilentVmKeepsItsRow` | apps/cc-tunnel/internal/provider/dockergce/provider.go:639-644 | a VM that no longer answers is never asked for, and its row never goes or changes |
| `Reconcile.PassesRefineTheAutomaton` | apps/cc-tunnel/internal/provider/dockergce/provider.go:619-685 | pass after pass and per VM, whatever fails, ReconcileVMs refines the automaton; from a new row, and with no clear lost, a VM asked for was seen empty for the timeout with no agent seen |
| `Aggregator.AddGrows` | apps/cc-tunnel/internal/api/message_service.go:35-96 | every event extends what was aggregated: blocks and text are prefixes, tool calls keep id and name, inputs are prefixes, results stay |
| `Aggregator.PrefixGrows` | apps/cc-tunnel/internal/api/message_service.go:35-96 | so a shorter prefix of a stream aggregates to a prefix of what a longer one does |
| `Aggregator.BlocksCarryStreamedText` | apps/cc-tunnel/internal/api/message_service.go:44-62 | the text of the blocks, the accumulated text and the streamed text blocks in order are one string |
| `StreamMeaning.BlocksMeaning` | apps/cc-tunnel/internal/api/message_service.go:44-62 | of any stream: the blocks are one for each non-empty thinking, text and tool-use block of the assistant messages, in order, and the accumulated thinking is theirs |
| `StreamMeaning.CallsMeaning` | apps/cc-tunnel/internal/api/message_service.go:67-75 | of any stream: the k-th call has id and name of the k-th tool started; the first call with an id carries the last result delivered for it since, cut to 1000 characters from an assistant message and 2000 from a user message, marked exactly when it was cut; a call has no result if there was none |
| `StreamMeaning.StartAdds` | apps/cc-tunnel/internal/api/message_service.go:142-146 | a tool start keeps that, with a new call that has no result |
| `StreamMeaning.EndAdds` | apps/cc-tunnel/internal/api/message_service.go:100-122 | so does a result, which replaces that of the first call with its id |
| `StreamMeaning.LastOnesMeaning` | apps/cc-tunnel/internal/api/message_service.go:77-95 | model: the last non-empty one of an init event; cost and duration: those of the last result event |
| `StreamMeaning.DeltasMeaning` | apps/cc-tunnel/internal/api/message_service.go:80-87 | hook events: all, in order; thinking: the deltas, concatenated into one block |
| `StreamMeaning.PayloadMeaning` | apps/cc-tunnel/internal/api/message_service.go:187-213 | the final payload of any stream, key by key and with each key there exactly when its value is not empty or not positive: session id, streamed text, thinking deltas or else the thinking of the assistant messages, model, cost, duration, hook events, tool calls |
| `Aggregator.LastCallRoutingExactly` | apps/cc-tunnel/internal/api/message_service.go:131-167 | appending input deltas to the last tool call agrees, at every point of a stream, with routing by block index if and only if every delta follows the start of its own tool block with no other tool started between |
| `Aggregator.OpenMeaning` | apps/cc-tunnel/internal/api/message_service.go:131-147 | what the index-routing reference knows at each point |
| `Aggregator.StepAgrees` | apps/cc-tunnel/internal/api/message_service.go:161-165 | one event keeps the two routings equal exactly when it is no stray delta |
| `Aggregator.AddInputs` | apps/cc-tunnel/internal/api/message_service.go:131-167 | only a tool start and an input delta change tool inputs |
| `StreamAggregator.CloneBlocks` | apps/cc-tunnel/internal/api/helpers.go:52-62 | equal blocks in fresh maps |
| `StreamAggregator.CloneToolCalls` | apps/cc-tunnel/internal/api/helpers.go:43-50 | a new array with equal elements, whose result pointers stay shared |
| `StreamAggregator.Aggregate.AppendCall` | apps/cc-tunnel/internal/api/message_service.go:142-146 | append: one more element, in the same backing array or in a new one |
| `StreamAggregator.Aggregate.AttachToolResult` | apps/cc-tunnel/internal/api/message_service.go:100-122 | sets the result of the first call with that id, truncated, in a new cell; no other call changes |
| `StreamAggregator.Aggregate.HandleStreamEvent` | apps/cc-tunnel/internal/api/message_service.go:126-169 | the aggregate of the partial-message event |
| `StreamAggregator.Aggregate.HandleAssistantBlock` | apps/cc-tunnel/internal/api/message_service.go:44-65 | the aggregate of one assistant block |
| `StreamAggregator.Aggregate.Handle` | apps/cc-tunnel/internal/api/message_service.go:35-96 | the aggregate of the event, whose meaning StreamMeaning tells from the stream; of the objects that exist, only the aggregator and the backing array of its tool calls are written, no block and no result cell |
| `StreamAggregator.Aggregate.Snapshot` | apps/cc-tunnel/internal/api/message_service.go:173-177 | shows exactly the aggregator's blocks and calls, in new maps and a new array |
| `StreamAggregator.Aggregate.Finalize` | apps/cc-tunnel/internal/api/message_service.go:183-214 | final blocks, merge payload and text are those of the aggregate |
| `StreamAggregator.MergePayload` | apps/cc-tunnel/internal/api/message_service.go:187-213 | the conditional puts build exactly the payload |
| `StreamAggregator.HandleAfterSnapshot` | apps/cc-tunnel/internal/api/message_service.go:115-121 | snapshot isolation: handling any further events changes nothing a snapshot shows, though the aggregator writes its tool calls in place and shares their result cells, and the aggregator then extends it |
| `Persist.StoredOnlyGrows` | apps/cc-tunnel/internal/api/message_service.go:316-365 | what is stored at an earlier point of any run, with any write failing and even after a panic, is a prefix of what is stored later and of the stream |
| `Persist.ScheduleIndependence` | apps/cc-tunnel/internal/api/message_service.go:312-365 | once both final writes succeeded the row equals that of a run without ticks, whatever the ticker did and whichever of its writes failed, but for a null tool_calls when there were none |
| `StoredTurn.RowExactly` | apps/cc-tunnel/internal/api/message_service.go:316-365 | the row after any steps of any run, told from the steps: it has blocks if and only if a write of them took effect, namely those of the events delivered when the snapshot written last was taken, or of all of them after the final write; likewise the tool calls; and apart from these the final payload, or nothing |
| `StoredTurn.TickStores` | apps/cc-tunnel/internal/api/message_service.go:322-331 | after a tick that writes, the row holds exactly what the events delivered before its snapshot add up to |
| `StoredTurn.TickIsSeen` | apps/cc-tunnel/internal/api/message_service.go:322-331 | and pollers see at least that at every later point of the run |
| `StoredTurn.StoredPayload` | apps/cc-tunnel/internal/api/message_service.go:357-362 | once the final merge succeeded, the row holds the payload of the stream |
| `Persist.StoredSessionId` | apps/cc-tunnel/internal/api/message_service.go:188 | a row carries a session id exactly when the final merge succeeded, and then the one the agent returned |
| `Persist.FinalMergeExactly` | apps/cc-tunnel/internal/api/message_service.go:346-362 | a finished run without panic merges exactly when the agent succeeded |
| `Persist.CleanTurn` | apps/cc-tunnel/internal/api/message_service.go:342-375 | a finished turn without panic in which no write failed leaves the conversation completed, and the message completed with exactly the data of a run without ticks, or marked as an error without a session id |
| `Persist.StoredTextRoundTrip` | apps/cc-tunnel/internal/db/repository.go:223-250 | text rebuilt from stored blocks, stored content and streamed text are equal |
| `Persist.NoEarlyCompletion` | apps/cc-tunnel/internal/api/message_service.go:297-304 | a poll that reads the conversation, then the messages, after the "running" write and sees "completed" shows the final row, which nothing can change any more, exactly when the ticker was joined; only a panic prevents that |
| `Persist.StaleCompletionExactly` | apps/cc-tunnel/internal/api/message_handler.go:67-69 | while the worker is busy "completed" is shown if and only if it is left over from an earlier turn and the "running" write has not taken effect |
| `Persist.PanicLeavesRowChanging` | apps/cc-tunnel/internal/api/message_service.go:288-304 | after a panic the ticker goes on writing to a conversation marked completed |
| `MessageService.UpdateMessageContentBlocks` | apps/cc-tunnel/internal/db/repository.go:223-232 | right-biased merge of that one key |
| `MessageService.MergeMessageData` | apps/cc-tunnel/internal/db/repository.go:241-250 | right-biased merge of the payload |
| `MessageService.UpdateMessageStatus` | apps/cc-tunnel/internal/db/repository.go:234-239 | sets the status of the message and nothing else |
| `MessageService.UpdateConversationStatus` | apps/cc-tunnel/internal/db/repository.go:129-132 | sets the status of the conversation |
| `MessageService.AdvanceTicker` | apps/cc-tunnel/internal/api/message_service.go:322-331 | the ticker's body call by call, each one protocol step: a snapshot of what is aggregated at that moment; a write after which, unless it failed, the row holds the blocks of that snapshot; one after which it holds its calls |
| `MessageService.HandleEvent` | apps/cc-tunnel/internal/api/message_service.go:35-96 | an event between two of these calls changes nothing the ticker holds |
| `MessageService.DrainTicker` | apps/cc-tunnel/internal/api/message_service.go:342-344 | after the agent returned the ticker finishes what it began and exits; no write of it follows |
| `MessageService.Unwind` | apps/cc-tunnel/internal/api/message_service.go:288-304 | a panic during the agent run: the conversation is marked completed while the ticker goes on |
| `MessageService.EveryThird` | apps/cc-tunnel/internal/api/message_service.go:322-331 | in any run of the ticker every third call, from the first, is a snapshot |
| `MessageService.SaveData` | apps/cc-tunnel/internal/api/message_service.go:357-362 | final blocks, then the merge payload |
| `MessageService.SaveStatus` | apps/cc-tunnel/internal/api/message_service.go:363-375 | completed, then title and update time |
| `MessageService.SaveTurn` | apps/cc-tunnel/internal/api/message_service.go:346-375 | the writes after the join, in order, are protocol steps to the end |
| `MessageService.ExecuteAndPersist` | apps/cc-tunnel/internal/api/message_service.go:287-376 | a whole turn, with events and the ticker's single calls in any order, late calls after the agent returned, or a panic, is a finished run of the protocol over exactly the events delivered, with as many failed writes as returned an error; if none did and the agent returned, the rows end complete |
| `MessageService.SendMessage` | apps/cc-tunnel/internal/api/message_handler.go:19-70 | each reply and its effect on the rows; a well-formed, authorized request to an existing conversation is accepted unless a call fails, and then carries resume id and history of the rows before this turn's own were inserted |
| `History.FindResumeSessionId` | apps/cc-tunnel/internal/api/message_service.go:219-229 | the most recent non-empty session id of an assistant row, or none |
| `History.LastSessionIdMeaning` | apps/cc-tunnel/internal/api/message_service.go:219-229 | whatever the rows are: the id of the last assistant row that has a non-empty one, or none if there is none |
| `History.BuildConversationHistory` | apps/cc-tunnel/internal/api/message_service.go:233-259 | one entry per row: prompt, or the text of the stored blocks |
| `History.ResumeIdOverConversation` | apps/cc-tunnel/internal/api/message_handler.go:42-53 | after any sequence of non-overlapping turns the next request resumes with the id of the last turn that left a non-empty one, or none |
| `History.SuccessfulTurnsLeaveTheirId` | apps/cc-tunnel/internal/api/message_service.go:346-362 | when nothing fails to be written, the turns that leave an id are exactly the successful ones |
| `History.TurnTextRoundTrip` | apps/cc-tunnel/internal/api/message_service.go:233-258 | the rebuilt text of a turn is a prefix of what was streamed, however it ended, and all of it and equal to the stored content once the final writes succeeded |
| `StoredTurn.EntryIsTextWritten` | apps/cc-tunnel/internal/api/message_service.go:233-258 | however a turn ended, its entry in the fallback history is exactly the text that had been streamed when the blocks written last were read, and empty if none were written |
| `History.HistoryOverConversation` | apps/cc-tunnel/internal/api/message_service.go:233-258 | over a whole conversation the fallback history alternates prompts and streamed texts |
| `History.RowsAt` | apps/cc-tunnel/internal/api/message_handler.go:48-59 | the rows of a conversation: prompt and answer of each turn, in order |
| `Poller.Poller.Fire` | apps/frontend/src/hooks/useConversationPoller.ts:51-57 | clears the interval once the stop flag is set, else issues a poll |
| `Poller.Poller.Settle` | apps/frontend/src/hooks/useConversationPoller.ts:29-44 | delivers messages, then completion if shown; a failed poll is ignored |
| `Poller.RunKeepsInv` | apps/frontend/src/hooks/useConversationPoller.ts:33-39 | every completion directly follows the delivery of the messages that showed it, in any order of responses |
| `Poller.DeliversExactly` | apps/frontend/src/hooks/useConversationPoller.ts:29-44 | on every run the messages delivered are those of the responses that arrived, completed or not, in the order of arrival, and each that shows the conversation completed is followed by the completion |
| `Poller.AsksExactly` | apps/frontend/src/hooks/useConversationPoller.ts:51-57 | one poll for each firing before the completion and none after it, when the first firing ends the timer; each poll is settled once |
| `Poller.OvertakenResponse` | apps/frontend/src/hooks/useConversationPoller.ts:51-57 | a slow response overtaken by the next delivers older messages after the completion |
| `Poller.CompletionIsLastExactly` | apps/frontend/src/hooks/useConversationPoller.ts:27-57 | on every run nothing is delivered after the completion, and so it comes once, if and only if polls do not overlap |
| `Poller.CompletionShowsFinalRow` | apps/cc-tunnel/internal/api/conversation_handler.go:63-73 | end to end: whenever the poller reports completion of a panic-free turn, the messages delivered just before show its row as it stays for good |
| `Sessions.RunKeepsInv` | apps/cc-tunnel/internal/docker/session_manager.go:60-204 | over every run each cached session refers to a container this manager created for that conversation, started, found ready and has not removed; distinct conversations have distinct containers |
| `Sessions.ErrorLeavesNoEntry` | apps/cc-tunnel/internal/docker/session_manager.go:90-114 | an error leaves no entry for the conversation and every other entry and all timers unchanged |
| `SessionLease.NamesAgreeExactly` | apps/cc-tunnel/internal/docker/session_manager.go:77-81 | two conversations share a container name if and only if their ids agree in the first eight characters, or are equal and shorter |
| `SessionLease.GetServes` | apps/cc-tunnel/internal/docker/session_manager.go:60-131 | after GetOrCreate the session handed out has a running container with the conversation's name, was used now, and its timer is due IdleTimeout from now; an error leaves none; no other conversation's session, timer or container changes |
| `SessionLease.NewConversationIsServed` | apps/cc-tunnel/internal/docker/session_manager.go:60-131 | in an engine empty at first, a conversation that shares its name with none asked for before is served, beside all others, if no call fails |
| `SessionLease.SharedNameBlocks` | apps/cc-tunnel/internal/docker/session_manager.go:76-92 | while the container of another conversation exists, one that shares its name cannot be served |
| `SessionLease.LastUsedExactly` | apps/cc-tunnel/internal/docker/session_manager.go:66-70 | over every run, a session's time of last use is when it was last handed out |
| `SessionLease.FailureCleansUp` | apps/cc-tunnel/internal/docker/session_manager.go:100-114 | a container whose agent did not come up is gone, or stopped, unless the engine failed to |
| `SessionLease.StopEnds` | apps/cc-tunnel/internal/docker/session_manager.go:163-185 | a stop that succeeds leaves neither session nor container nor timer, one that fails leaves the session and its timer disarmed; no other conversation is touched |
| `SessionLease.RunKeepsWatched` | apps/cc-tunnel/internal/docker/session_manager.go:122-127 | over every run in which no stop of it failed, a session's own timer is armed for when it will have been idle, or a callback for it waits |
| `SessionLease.FailedStopForgets` | apps/cc-tunnel/internal/docker/session_manager.go:172-181 | a stop leaves a session without timer if and only if it fails |
| `SessionLease.ForgottenStays` | apps/cc-tunnel/internal/docker/session_manager.go:172-181 | and such a session is never stopped, however long it is idle, until a caller asks for it or stops it |
| `Sessions.RecreationWorksExactly` | apps/cc-tunnel/internal/docker/session_manager.go:72-92 | from a cached session a new one can be made if and only if no container holds the name; while the dead container is in the engine every attempt fails and drops the entry |
| `Sessions.FailureOrphansExactly` | apps/cc-tunnel/internal/docker/session_manager.go:94-114 | a failed creation leaves a container blocking the conversation if and only if it was not started, or could not be removed |
| `Sessions.OrphanBlocksForever` | apps/cc-tunnel/internal/docker/session_manager.go:76-92 | such a container stays, and every later attempt fails, through all operations, timers and crashes, until someone else removes it |
| `Sessions.StopsOnlyIdleExactly` | apps/cc-tunnel/internal/docker/session_manager.go:122-127 | "stopped only after IdleTimeout" holds on every run if and only if no session is made while an earlier one's timer is armed and none is made or used while a callback for it waits |
| `Sessions.RunKeepsTimely` | apps/cc-tunnel/internal/docker/session_manager.go:66-75 | without those two, the timers of cached sessions are current and every pending callback is due |
| `Sessions.ReplacedSessionStoppedEarly` | apps/cc-tunnel/internal/docker/session_manager.go:72-73 | a replaced session is stopped by its predecessor's timer |
| `Sessions.UsedSessionStopped` | apps/cc-tunnel/internal/docker/session_manager.go:122-127 | a session used while the callback waits for the mutex is stopped at once |
| `SessionManager.DockerRunner.ContainerCreate` | apps/cc-tunnel/internal/docker/sdk_runner.go:44-79 | rejects a name in use |
| `SessionManager.SessionManager.GetOrCreate` | apps/cc-tunnel/internal/docker/session_manager.go:60-131 | exactly one step of the session model, with its outcome and as many failed calls as it says; a session handed out has a running container, was used now and is timed anew; a new one answered, and took the credentials if there are any, at its own container; if no call fails there is a session unless a container holds the name |
| `SessionManager.SessionManager.TryReuse` | apps/cc-tunnel/internal/docker/session_manager.go:65-74 | reuses and re-arms, or drops the entry and leaves its timer |
| `SessionManager.SessionManager.Stop` | apps/cc-tunnel/internal/docker/session_manager.go:163-185 | exactly one step; the entry goes only if stop and remove both succeed, and stays only if one of them failed |
| `SessionManager.SessionManager.Callback` | apps/cc-tunnel/internal/docker/session_manager.go:122-127 | stops whatever session the conversation has by then |
| `SessionManager.SessionManager.StopAll` | apps/cc-tunnel/internal/docker/session_manager.go:188-204 | a run of stops; succeeds exactly when no session is left, which is exactly when no call failed |
| `SessionManager.SessionManager.CleanupOrphans` | apps/cc-tunnel/internal/docker/session_manager.go:208-222 | removes only containers that do not run and bear the prefix, and all of them unless a call failed |
| `FanOut.EveryInterleaving` | apps/cc-remote-agent/internal/auth/manager.go:144-184 | over every interleaving: no send on a closed channel, no channel closed twice, queues never above 64, and a subscriber has, in order, exactly the chunks broadcast while it was registered that found room; all of them if and only if its queue was never full at a broadcast |
| `FanOut.RunKeepsInv` | apps/cc-remote-agent/internal/auth/manager.go:144-184 | the invariant behind that, including what each channel was offered |
| `FanOut.AllFitExactly` | apps/cc-remote-agent/internal/auth/manager.go:152-156 | nothing is missing if and only if every chunk found room |
| `FanOut.LosslessExactly` | apps/cc-remote-agent/internal/auth/manager.go:150-158 | a subscriber gets, or still has queued, every chunk it was offered if and only if at each offer fewer than 64 of those before were still to be received |
| `FanOut.ClosedExactly` | apps/cc-remote-agent/internal/auth/manager.go:176-182 | a channel is closed exactly when its subscriber has closed it, which comes after it was deleted |
| `FanOut.AuthManager.Subscribe` | apps/cc-remote-agent/internal/auth/manager.go:171-184 | a fresh empty channel joins; no other changes |
| `FanOut.AuthManager.Broadcast` | apps/cc-remote-agent/internal/auth/manager.go:150-158 | every subscriber's channel is offered the chunk once, no other channel changes |
| `FanOut.AuthManager.Unsubscribe` | apps/cc-remote-agent/internal/auth/manager.go:176-182 | leaves under the lock, then is closed |
| `FanOut.AuthManager.Receive` | apps/cc-remote-agent/internal/auth/manager.go:171-184 | takes the oldest chunk; nothing is lost between queue and receiver |
| `Login.InputReachesExactly` | apps/cc-remote-agent/internal/auth/manager.go:84-142 | on every run input reaches the running, uncancelled login if and only if logins, up to the end of their goroutines, do not overlap |
| `Login.LateClear` | apps/cc-remote-agent/internal/auth/manager.go:128-142 | a cancelled login's goroutine clears the fields of the next one |
| `Login.PendingExactly` | apps/cc-remote-agent/internal/auth/manager.go:93-142 | on every run a login is refused, and input has an addressee, exactly while the login published last was followed neither by a cancel nor by the end of any login's goroutine |
| `Login.AuthFields.TryStart` | apps/cc-remote-agent/internal/auth/manager.go:93-98 | refused exactly while a login is pending |
| `Login.AuthFields.CancelLogin` | apps/cc-remote-agent/internal/auth/manager.go:215-222 | clears the fields of the published login |
| `Login.AuthFields.SubmitInput` | apps/cc-remote-agent/internal/auth/manager.go:200-212 | goes to the published login |

## Left out

- Repository.Database.ListIdleVMInstances: says which rows are listed, each once, not their order; nothing downstream depends on it. The same holds for the two other listings.
- Repository.Database.GetAvailableVMInstance: leaves open which of several equally full VMs is returned, as the query does.
- Repository.Database.CreateVMInstance: the UNIQUE key on the instance name appears only as a call that may fail; the zone column is not modelled.
- Repository.Database.UpdateVMInstanceStatus: a statement that took effect while its answer was lost is not modelled, here or for any other call.
- Repository.Database.IncrementVMActiveContainers: counters are unbounded, the column is a 32-bit INTEGER.
- PortRace.StrayBlocks: a VM that is deleted takes its containers along; that shows only as their removal from outside, and no VM id is used twice.
- Provider.GceProvider.CreateGceVm: a GCE instance whose row cannot be inserted is left running by the code; instances without a row are not modelled.
- Provider.GceProvider.GetOrCreateEndpoint: models the one caller that singleflight lets through per conversation, not the callers that share its result; MaxContainers and PortRangeStart are taken as positive (the code replaces only zero by the defaults).
- Provider.GceProvider.StartAgent: which address a call goes to is logged; that the host at the address is the VM is taken for granted, so the calls on containers name VMs. Deletions name VMs by id, where the code uses the instance's name.
- Cleanup.CleanupOrphans: as a method it meets no interference; interleavings with creators are covered by Allocator's runs. Passes that overlap each other, and two cc-tunnel processes, are not modelled.
- Reconcile.PassesRefineTheAutomaton: passes do not overlap, and containers do not start or end during one; stored timestamps are exact, where the column rounds to microseconds; durations do not saturate.
- SelfReaper.Reaper.Run: firings are given; that the ticker fires at least Interval apart is a hypothesis of ZeroAgents.DeletionComesDue.
- MessageService.ExecuteAndPersist: as a method a panic comes only from the agent run; panics at any later point are covered by Persist's runs. Two overlapping sends to one conversation are not modelled, the code does nothing against them.
- MessageService.Stream: an event is handled, and a snapshot taken, as a whole: the aggregator's mutex is taken for granted.
- StreamAggregator.Aggregate.AttachToolResult: strings are sequences of characters; truncation at a byte count inside a multi-byte character, and what the JSON encoder makes of it, is not modelled.
- StreamAggregator.Aggregate.Finalize: marshals tool calls at once, where the code hands their slice to the merge that follows; no event can come between. The slices of blocks, thinking blocks and hook events are values: no snapshot aliases them, and no element a snapshot shows is written.
- StreamAggregator.Aggregate.Handle: starts from decoded events; JSON decoding appears only as an event that is malformed. Costs are real numbers.
- MessageService.SendMessage: credentials and sessions of the web application are one boolean; the request body is decoded.
- Poller.CompletionShowsFinalRow: scoped to polls after the "running" write and to turns without a panic, as Persist.StaleCompletionExactly and Persist.PanicLeavesRowChanging show it must be.
- SessionManager.SessionManager.GetOrCreate: the container-manager runner, whose inspection always answers "running", is not modelled; the engine is one that rejects names in use.
- SessionManager.SessionManager.StopAll: stated for no interference between the single stops.
- FanOut.AuthManager.Broadcast: the bytes read from the PTY are given as chunks.
- Login.AuthFields.TryStart: the status query before the check, and the PTY itself, are not modelled.
- waitForAgentReady and the local manager's waitForReady polling, contexts and timeouts: reduced to their outcome and their writes.
- Title generation: a library of regular expressions with a length cut; its write is a step that leaves the status alone.
- HTTP handlers beyond the order of their repository calls, generated API code, the GCE and Docker clients: I/O over libraries.
- Command execution of the agent, credential encryption, app sessions, label filtering, React components: easy members or code over libraries.

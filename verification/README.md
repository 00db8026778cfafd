# Resource ownership and versioning of the GPU Docker API

The service runs replica sets: one container at a time per name, replaced by a new version `name-1`, `name-2`, ...
whenever it is restarted, patched or rolled back. This project models the part of it that must not go wrong: who owns the GPUs,
the processors and the host ports, and which number a version has. It proves when exclusive ownership survives each
request, and whole runs of them, however Docker, the random source and Go's map order behave.

How it is laid out:

- `GpuScheduler`, `CpuScheduler`, `PortScheduler`: the three allocators as classes over their maps and sets, each
  proved against what it should grant, and each safe under any interleaving of calls (`Clients`, `Ledger`, `Pools`).
- `Mvcc`: the etcd store as a log of writes, the reads it answers, and the two walks over revisions. `Landing`: items
  on their way to it, any of which may land next.
- `Versions`, `Books`, `Numbering`: the version map, how far it, the store and the records can drift apart, and what
  that means for rollbacks. `Rollbacks`: what a rollback brings back.
- `WorkQueue`: the queue as a protocol of steps, with goroutines that finish in any order and failed writes sent back.
- `Volumes`, `VolumeService`, `Sizes`: volumes, resizing and the arithmetic of sizes.
- `Fleet`: replica sets as a state machine. A state is everything the service reads or writes. An event is one
  request together with what the outside world decided meanwhile; `Enabled` says which outcomes are possible and
  `Next` what they leave behind.
- `Ownership`, `OwnershipReplace`, `OwnershipFailed`, `OwnershipRollback`, `Safety`, `Runs`: the ownership invariant,
  its exact condition for every event, and the theorems over runs. `Departures` has the shortest ways to break it,
  `Unquiet` a way that needs two items of one replica set on their way at once. `PortLeaks`: which host ports are
  lost.
- `Successors`, `Environment`: what a container hands to its successor.
- `ReplicaSets`, `ReplicaSetService`: the service's methods as imperative code on mutable objects. Every public method
  ensures that it has been one enabled event of the fleet, which carries the theorems over to it.

Docker is a class with a map of containers; calls that change it may fail at will. A container is live while it is
running or paused. `Owned` says that the marked GPUs and processors are exactly the disjoint union of what live
containers hold, and that live containers' host ports are disjoint and all marked. Ports are only covered, not
exact, because runContainer keeps the ports it has drawn when a create or start fails; `PortLeaks.PortsExactIff` says
which are then marked for nobody.

The work queue starts a goroutine per item and puts failed items back at its end, so items reach the store in any
order: `Sync(i)` lands any one of them. The theorems over runs therefore ask that a replica set, or a volume, is sent
for only when nothing is on its way for it; items of different names may be outstanding together and overtake each
other. The code does not enforce this, and `Unquiet` and `Numbering.UnquietCanDisagree` show what happens otherwise.

Where the code and its documentation differ, the code is followed. README.md:279-280 of the repository says that 0
means used; in both status maps 0 means free.

## Model

| member | source | states |
|---|---|---|
| `Safety.OwnedIff` | internal/services/replicaset.go:45-864 | For every request, rollbacks included, and every way it can go (Docker failures, refused grants, exhausted ports), given for Restart and Patch that the stored record describes the container: if the marked GPUs and processors were exactly the disjoint union of what live containers hold, and host ports disjoint and reserved, then the same holds afterwards if and only if the condition `Keeps` on the state before and the outcome holds |
| `Runs.RunOwnedThroughoutIff` | internal/services/replicaset.go:45-864 | A run in which records stay up to date, whichever queued item lands next, has exclusive ownership at every point if and only if each of its events satisfies `Keeps` |
| `Runs.PlainRunOwned` | internal/services/replicaset.go:45-864 | Any sequence of runs with at least one processor (successful or failing), pauses, deletions, stops and continues of live containers, and completed restarts, patches and rollbacks of live containers, keeps ownership, the agreement of records with live containers, a processor for every container, and that no live container has a number above the current one. Each replica set is run, deleted or replaced only when nothing is on its way to the store for it, and deleted only when no other container of its name is live; items of different replica sets land in any order. A patch that gives up the GPUs has to change the processor count, and a rollback that changes no count has to go to a record that lists the units in use |
| `Runs.PlainFromFresh` | internal/services/replicaset.go:45-864 | The same from a machine on which nothing has run, for every number of GPUs and processors and every port range |
| `Runs.FreshOwned` | internal/schedulers/gpuscheduler.go:46-57 | First start with different device ids establishes the invariant |
| `Runs.TracksNext` | internal/services/replicaset_nomock.go:95-113 | The newest record of a replica set describes its current container, if that is live, and at most one item is on its way for it; each event keeps this, whichever item lands, if it sends for a replica set only when nothing is on its way for that one |
| `Runs.TrackedRecorded` | internal/services/replicaset.go:772-780 | With nothing on its way for the replica set, Restart and Patch read a record that describes the container they replace |
| `Unquiet.UnquietRunDoubleBooks` | internal/services/replicaset.go:45-223 | From every owned state with an empty queue, a free GPU and four free processors, for two names of which nothing is known: run a with the GPU, delete it, run b with it, run a again without one. All four succeed; if the first record of a is written last, a restart of a succeeds and starts it with b's GPU |
| `Unquiet.StaleRecordDoubleBooks` | internal/services/replicaset.go:782-794 | For every state: restarting a live container without GPUs from a record that lists one which a live container has gives that GPU to both |
| `Landing.LandExpected` | internal/workQueue/workQueue.go:23-46 | Whichever queued item lands next, the values expected of a key stay the same if at most one item is on its way for it |
| `PortLeaks.RunPorts` | internal/services/replicaset_nomock.go:44-69 | Over any plain run the ports in use are exactly the disjoint union of what live containers hold and of what its failed creates and starts had drawn |
| `PortLeaks.PortsExactIff` | internal/services/replicaset_nomock.go:44-69 | From a fresh machine, over any plain run: a marked port is held by nobody exactly when a failed launch drew it, so marked ports are exactly the held ones if and only if no launch with ports has failed |
| `Ownership.RunOwnedIff` | internal/services/replicaset.go:88-155 | A run keeps ownership precisely when it asks for a processor or does not fail inside runContainer |
| `Ownership.RunFailureRestores` | internal/services/replicaset.go:88-147 | Every failing exit leaves the GPU map exactly as it was, and the processor map too, except that a failed run without processors changes the latter |
| `Ownership.PauseOwned` | internal/services/replicaset.go:641-658 | Pausing keeps ownership: a paused container still holds its units |
| `Ownership.ContinueOwnedIff` | internal/services/replicaset.go:717-732 | docker restart keeps ownership precisely for a live container, or one that claims nothing others have and nothing unmarked |
| `Ownership.StopOwnedIff` | internal/services/replicaset.go:582-639 | Stop keeps ownership precisely when there is a cpuset and either the container is live and Docker stops it, or it is not live and nobody has got its former units |
| `Ownership.DeleteOwnedIff` | internal/services/replicaset.go:157-223 | Delete keeps ownership precisely when the container is not live, or has a cpuset and is really removed |
| `Ownership.CpuBackEmpty` | internal/services/replicaset.go:995-1002 | Splitting an empty cpuset and giving it back leaves the key "" in the processor map, whose keys are then no longer the machine's processors |
| `Ownership.Released` | internal/services/replicaset.go:594-637 | What the three Restore calls leave, and that repeating the first two after a failed stop changes nothing |
| `OwnershipReplace.SuccessorOwnedIff` | internal/services/replicaset.go:736-864 | A completed Restart or Patch of a live container keeps ownership precisely when a cpuset there was is given back, or the processors stay as they are and, unless there are none, the GPUs are not given up |
| `OwnershipReplace.Settles` | internal/services/replicaset.go:448-539 | After the GPU and processor stages, what is marked beyond the other containers' units is what the new configuration claims, disjoint from the others |
| `OwnershipReplace.EmptySpoils` | internal/services/replicaset.go:524-532 | Freeing an empty cpuset spoils the key set whatever is applied afterwards |
| `OwnershipFailed.NoGpusOwnedIff` | internal/services/replicaset.go:475-488 | A refused GPU request loses the reservation of a live container precisely when it had GPUs |
| `OwnershipFailed.RefusedGone` | internal/services/replicaset.go:524-532 | A refused processor request has already unmarked the processors of a live container |
| `OwnershipFailed.BackGone` | internal/services/replicaset.go:317-325 | Giving back after a failed launch leaves a live container without its processors, whichever way they had been settled |
| `OwnershipFailed.StalledOwnedIff` | internal/services/replicaset.go:816-841 | If the successor is created but never started, ownership is kept precisely when what was marked is what the old container holds |
| `OwnershipFailed.DoubledOwnedIff` | internal/services/replicaset.go:660-679 | If the old container is not removed, both live: ownership is kept precisely when the old one has no GPU and no port and its processors are not claimed twice |
| `OwnershipFailed.IdleFinished` | internal/services/replicaset.go:736-864 | Replacing a container that is not live keeps ownership precisely when none of its former host ports has been taken, by another container or by its own successor |
| `OwnershipFailed.IdleRefused` | internal/services/replicaset.go:782-808 | A refused processor request of a stopped container: Patch gives the fresh GPUs back, Restart leaves them marked |
| `OwnershipFailed.IdleNotLaunched` | internal/services/replicaset.go:816-823 | A failed launch for a stopped container gives back exactly what was applied for |
| `Safety.ReplaceOwnedIff` | internal/services/replicaset.go:267-363 | All outcomes of Restart and Patch, for live and other containers, in one condition |
| `Safety.RollbackOwnedIff` | internal/services/replicaset.go:365-446 | All outcomes of a rollback, for live and other containers and whatever the old record says: refused grants are not given back, later failures keep ownership precisely when the new grant is what the container has, and a completed rollback precisely when the record's units are the ones marked for it, shaped as this machine's, and none of a stopped container's former ports is taken |
| `Departures.TinyHasAll` | internal/services/replicaset.go:45-155 | A concrete machine meets the invariant with a live container that has everything |
| `Departures.FailedPatchLosesGpu` | internal/services/replicaset.go:475-488 | Concrete: asking for one GPU more than there are leaves the running container with a GPU marked free |
| `Departures.DroppedGpuLosesCpu` | internal/services/replicaset.go:480-483 | Concrete: giving up the GPU while keeping the processor count wipes the cpuset, and the processor stays marked for nobody |
| `Departures.FailedRunAddsKey` | internal/services/replicaset.go:145-147 | Concrete: a failing run without processors breaks the processor map of any machine |
| `Departures.ContinueAfterStop` | internal/services/replicaset.go:717-732 | Stop then continue of any live container: owned after the first, not after the second |
| `Departures.SecondStopSteals` | internal/services/replicaset.go:594-604 | Stopping a stopped container whose GPU has been granted to somebody else breaks ownership |
| `Departures.RollbackSharesGpu` | internal/services/replicaset.go:387-394 | For every state: rolling back to a record with as many GPUs takes the GPUs that the record lists, and if another live container has one of them by now it has two holders |
| `Departures.RollbackDoubleBooks` | internal/services/replicaset.go:387-394 | Concrete: an owned machine of two replica sets on which a rollback that succeeds does so |
| `Successors.RestartNeverShort` | internal/services/replicaset.go:782-808 | Restarting an owned live container is never refused GPUs or processors, and its new processors are as many, ascending, and pointwise no higher than the old ones |
| `Successors.RestartKeepsConfiguration` | internal/services/replicaset.go:736-820 | The successor of a completed restart has as many GPUs and processors as the old container, the same memory and the same binds |
| `Successors.PatchMeetsRequest` | internal/services/replicaset.go:267-318 | The successor of a completed patch has exactly the GPUs, memory and binds asked for and keeps what was not; it has the processors asked for unless they were to stay while the GPUs were given up, which empties the cpuset |
| `Successors.ReplacedPortsConserved` | internal/services/replicaset_nomock.go:56-69 | A replacement binds the same container ports one to one to host ports disjoint from the old ones; the number of ports in use is unchanged and all other live containers' ports stay reserved |
| `Numbering.RunGap` | internal/services/replicaset_nomock.go:26-54 | Over any run, rollbacks included, that sends for a replica set one item at a time, in whatever order items land, the version map is ahead of the store's count by exactly the number of drifting events (exhausted ports, failures after runContainer) since its last deletion, and map, store and records agree if and only if there was none |
| `Numbering.EventGap` | internal/services/replicaset.go:438-442 | One event, a rollback or the landing of any item included, opens the gap by one, closes it (deletion), or leaves it, if it sends for the name only when nothing is on its way |
| `Numbering.RollbackFinds` | internal/services/replicaset.go:365-379 | With nothing on its way for the name, a version other than the current one is found exactly when it is between one and the current number less the gap; without a gap, exactly when it is an earlier version, and the record found carries it |
| `Numbering.RollbackAfterRun` | internal/services/replicaset.go:365-379 | From an empty fleet, over any run that sends for the name one item at a time and does not drift after its last deletion, once nothing is on its way: rollback finds exactly the versions before the current one, each with its own record, whether made by a run, a restart, a patch or an earlier rollback |
| `Numbering.UnquietCanDisagree` | internal/workQueue/workQueue.go:25-46 | The converse: from every state with two different items on their way for one name, some landing of everything leaves map, store and records in disagreement |
| `Rollbacks.RollbackRestores` | internal/services/replicaset.go:414-442 | The record that a completed rollback sends has the new number and otherwise the target's configuration: as many GPUs and processors (unless giving up the GPUs wiped the cpuset), the same binds and container ports, and the same environment up to the version entry |
| `Rollbacks.RecordStays` | internal/etcd/revision.go:46-66 | A stored version is found as the same record for as long as the replica set is not deleted, over any run that sends for it one item at a time |
| `Rollbacks.RollbackOfRollback` | internal/services/replicaset.go:438-442 | A version made by a rollback to v is found, after any such run, with the record that this rollback sent; its environment under any further number is that of v |
| `Rollbacks.MemoryRestoredIff` | internal/services/replicaset.go:407-409 | Megabytes are printed as gigabytes: the memory limit of the record comes back precisely when there was none or the container has 1024 times as much |
| `Versions.UndoBump` | internal/services/replicaset_nomock.go:44-54 | The deferred function restores the version map exactly, unless a zero had been stored |
| `Versions.VersionMap.Set` | internal/version/version.go:59-63 | Changes one entry |
| `Versions.VersionMap.Get` | internal/version/version.go:65-68 | The number, or zero and false |
| `Versions.VersionMap.Exist` | internal/version/version.go:70-73 | Whether there is an entry |
| `Versions.VersionMap.Remove` | internal/version/version.go:75-79 | Removes one entry |
| `Environment.RewriteParts` | internal/services/replicaset_nomock.go:31-42 | Rewriting changes the first version entry or adds one; all other entries keep their order |
| `Environment.RewriteAbsorbs` | internal/services/replicaset_nomock.go:31-42 | Rewriting for v and then for w is rewriting for w |
| `Environment.ChainIsLast` | internal/services/replicaset_nomock.go:31-42 | A chain of any number of rewritings is its last one |
| `Environment.RunAlwaysNamed` | internal/services/replicaset_nomock.go:31-42 | Over any run, rollbacks included, whose requests bring at most one version entry, every container and record has exactly one, and it is the version in the container's own name |
| `ReplicaSets.ContainerInfo.setVersion` | internal/services/replicaset_nomock.go:31-42 | The loop over the environment computes the rewriting that the lemmas speak of |
| `ReplicaSets.ContainerInfo.bindPorts` | internal/services/replicaset_nomock.go:62-68 | In whatever order the map is visited, container ports get different host ports, all of the granted ones, and nothing else changes |
| `ReplicaSets.ContainerInfo.patchVolume` | internal/services/replicaset.go:564-580 | The first bind equal to the old one is overwritten, in place |
| `ReplicaSets.RewriteBindsAt` | internal/services/replicaset.go:573-578 | No bind before the first match changes, and none at all without a match |
| `ReplicaSetServices.ReplicaSetService.assignPorts` | internal/services/replicaset_nomock.go:56-69 | All container ports are bound to fresh host ports of the range, or the request for ports cannot be met and nothing changes |
| `ReplicaSetServices.ReplicaSetService.startContainer` | internal/services/replicaset.go:931-946 | A container that does not start is removed, or lingers if that fails too |
| `ReplicaSetServices.ReplicaSetService.runContainer` | internal/services/replicaset_nomock.go:25-114 | Number drawn and taken back after a failed create or start but not after exhausted ports; ports stay marked; the record carries number, name, rewritten environment and bound ports |
| `ReplicaSetServices.ReplicaSetService.reserve` | internal/services/replicaset.go:88-124 | Resources reserved, or the request is refused with its own grants undone |
| `ReplicaSetServices.ReplicaSetService.RunGpuContainer` | internal/services/replicaset.go:45-155 | The whole new state is that of one possible Run event |
| `ReplicaSetServices.ReplicaSetService.PauseContainer` | internal/services/replicaset.go:641-658 | One possible Pause event |
| `ReplicaSetServices.ReplicaSetService.StartupContainer` | internal/services/replicaset.go:717-732 | One possible Continue event |
| `ReplicaSetServices.ReplicaSetService.containerPortBindings` | internal/services/replicaset.go:979-993 | In whatever order, the list restores exactly the container's host ports |
| `ReplicaSetServices.ReplicaSetService.StopContainer` | internal/services/replicaset.go:582-639 | For each combination of the four flags: which units are given back, what happens to the container, and that with all of them it is one possible Stop event |
| `ReplicaSetServices.ReplicaSetService.DeleteContainer` | internal/services/replicaset.go:157-223 | One possible Delete event |
| `ReplicaSetServices.ReplicaSetService.reapplyGpus` | internal/services/replicaset.go:782-794 | The GPU stage of Restart |
| `ReplicaSetServices.ReplicaSetService.reapplyCpus` | internal/services/replicaset.go:796-808 | The processor stage of Restart |
| `ReplicaSetServices.ReplicaSetService.patchGpu` | internal/services/replicaset.go:448-495 | The GPU stage of Patch: kept, given up with the whole resource block, or applied for anew |
| `ReplicaSetServices.ReplicaSetService.patchCpu` | internal/services/replicaset.go:497-539 | The processor stage of Patch, trimming included |
| `ReplicaSetServices.ReplicaSetService.patchMemory` | internal/services/replicaset.go:541-562 | The memory is replaced if it reads as another size, refused if it does not read |
| `ReplicaSetServices.ReplicaSetService.DeleteContainerForUpdate` | internal/services/replicaset.go:660-679 | The old container's ports are given back even if it cannot be removed |
| `ReplicaSetServices.ReplicaSetService.recreate` | internal/services/replicaset.go:815-858 | What Restart and Patch share: launch, copy, start, remove, send |
| `ReplicaSetServices.ReplicaSetService.RestartContainer` | internal/services/replicaset.go:736-864 | One possible Replace event for Restart |
| `ReplicaSetServices.ReplicaSetService.PatchContainer` | internal/services/replicaset.go:267-363 | One possible Replace event for Patch |
| `ReplicaSetServices.ReplicaSetService.rollbackTarget` | internal/services/replicaset.go:365-379 | The record to go back to, or why there is none |
| `ReplicaSetServices.ReplicaSetService.relaunch` | internal/services/replicaset.go:414-442 | What a rollback ends with: launch and start, copy, remove, send; nothing is given back |
| `ReplicaSetServices.ReplicaSetService.RollbackContainer` | internal/services/replicaset.go:365-446 | One possible Rollback event, its memory read from the printed one |
| `ReplicaSetServices.ReplicaSetService.applyItem` | internal/workQueue/workQueue.go:23-46 | Any one item of the queue reaches the store: one Sync event |
| `GpuScheduling.GpuScheduler.constructor` | internal/schedulers/gpuscheduler.go:46-57 | One free entry per device found |
| `GpuScheduling.GpuScheduler.Apply` | internal/schedulers/gpuscheduler.go:85-112 | For every map iteration order: granted exactly when the number is in range and enough are free; then exactly that many different free ids are marked; otherwise the map is identical |
| `GpuScheduling.GpuScheduler.Restore` | internal/schedulers/gpuscheduler.go:115-126 | Ids become free; a list that is empty or too long is ignored |
| `GpuScheduling.GpuScheduler.restore` | internal/schedulers/gpuscheduler.go:128-136 | The same guard again, which never suppresses the undoing in Apply |
| `GpuScheduling.CollectedEnd` | internal/schedulers/gpuscheduler.go:93-107 | However far the walk got, undoing it restores the map |
| `GpuScheduling.RunExact` | internal/schedulers/gpuscheduler.go:85-136 | Any interleaving of calls by any number of clients that return only what they hold: no unit has two holders, held units are exactly the used ones, and free and used make up the initial total |
| `GpuScheduling.ParseOutput` | internal/schedulers/gpuscheduler.go:181-203 | The loop returns the devices before the first bad line, and whether there is one |
| `GpuScheduling.ParseShown` | internal/schedulers/gpuscheduler.go:181-203 | Parsing undoes printing: the text with a line per device gives back every list of devices whose ids contain no line break and no field separator, under their CDI names |
| `CpuScheduling.CpuScheduler.constructor` | internal/schedulers/cpuscheduler.go:39-49 | Keys 0 to n-1, all free |
| `CpuScheduling.CpuScheduler.Apply` | internal/schedulers/cpuscheduler.go:77-116 | Grant, refusal and new map as the walk over the indices has them |
| `CpuScheduling.CpuScheduler.Restore` | internal/schedulers/cpuscheduler.go:118-130 | Every name becomes a free key |
| `CpuScheduling.WalkLowest` | internal/schedulers/cpuscheduler.go:93-104 | The walk picks the lowest free processors in ascending order, and takes all of them if there are fewer |
| `CpuScheduling.LowestUnique` | internal/schedulers/cpuscheduler.go:93-104 | There is only one such list |
| `CpuScheduling.TakeIffEnough` | internal/schedulers/cpuscheduler.go:77-109 | A request is granted exactly when it is in range and enough processors are free |
| `CpuScheduling.RefusedUnchanged` | internal/schedulers/cpuscheduler.go:106-109 | A refused request leaves the map identical |
| `CpuScheduling.WalkGrants` | internal/schedulers/cpuscheduler.go:94-104 | What is granted was free, each once |
| `CpuScheduling.SplitCpuSet` | internal/schedulers/cpuscheduler.go:111-115 | Splitting the printed cpuset gives the names back, in order |
| `CpuScheduling.ApplyRestoreApply` | internal/schedulers/cpuscheduler.go:77-138 | Apply, Restore, Apply with the same number gives the same string |
| `CpuScheduling.ReapplyCompacts` | internal/services/replicaset.go:796-808 | Giving back and asking for as many is never refused and nowhere moves up |
| `CpuScheduling.GiveSoundIff` | internal/schedulers/cpuscheduler.go:132-138 | Restore keeps the key set exactly when all names are processors of the machine |
| `CpuScheduling.EmptyCpuSetGrantsMissing` | internal/schedulers/cpuscheduler.go:94-97 | After an empty cpuset has been given back to a full machine, Apply grants a processor that does not exist |
| `CpuScheduling.RunExact` | internal/schedulers/cpuscheduler.go:77-138 | As for GPUs, and the key set stays exactly 0 to n-1 |
| `PortScheduling.PortScheduler.InitPortScheduler` | internal/schedulers/portscheduler.go:31-50 | Stored settings are kept; otherwise the range option decides, or is rejected |
| `PortScheduling.PortScheduler.Apply` | internal/schedulers/portscheduler.go:76-105 | Granted exactly when in range and enough ports are left; then that many different unused ports of the range are marked |
| `PortScheduling.PortScheduler.draw` | internal/schedulers/portscheduler.go:93-100 | The rejection loop ends for every stream in which each port keeps coming back, by missing ports and then distance to the next unused one |
| `PortScheduling.PortScheduler.drawPort` | internal/schedulers/portscheduler.go:94-98 | One random number becomes a port exactly when it is not in use |
| `PortScheduling.RoundRobinFair` | internal/schedulers/portscheduler.go:94-94 | Such streams exist for every width: going round and round is one |
| `PortScheduling.FreeDrawAhead` | internal/schedulers/portscheduler.go:93-100 | While ports are missing, some later draw yields an unused one (pigeonhole over the decimal names) |
| `PortScheduling.PortScheduler.Restore` | internal/schedulers/portscheduler.go:108-119 | Ports become unused; a list that is empty or too long is ignored |
| `PortScheduling.PortScheduler.restore` | internal/schedulers/portscheduler.go:121-125 | Removes each port |
| `PortScheduling.PortScheduler.GetPortStatus` | internal/schedulers/portscheduler.go:137-161 | A copy equal to the original |
| `PortScheduling.PortScheduler.GetPorts` | internal/routers/resource.go:32-38 | Reports the settings, the ports in use and the number left |
| `PortScheduling.SplitPortRangeIff` | internal/schedulers/portscheduler.go:171-192 | Accepted exactly when the text is two readable numbers around one dash, in order, below 65536 |
| `PortScheduling.SplitPrinted` | internal/schedulers/portscheduler.go:171-192 | Reading undoes printing |
| `PortScheduling.RunExact` | internal/routers/resource.go:32-38 | Over any interleaving no port is shared, and a request is granted exactly up to the reported number |
| `Mvcc.Store.GetRevisionRange` | internal/etcd/revision.go:18-44 | The walk returns the whole history of the key's current lifetime, or nothing for a missing key |
| `Mvcc.Store.GetRevision` | internal/etcd/revision.go:46-66 | The value written as that version of the current lifetime, or not found |
| `Mvcc.HistorySound` | internal/etcd/revision.go:18-44 | Every entry is a write of this key that no later deletion has ended, with its value |
| `Mvcc.HistoryComplete` | internal/etcd/revision.go:18-44 | Every such write is in the history |
| `Mvcc.CommitLived` | internal/etcd/revision.go:18-44 | A put adds to the values of its key's lifetime, a delete ends it; a delete of a missing key makes no revision and changes nothing |
| `Mvcc.HistoryNumbered` | internal/etcd/revision.go:18-44 | Versions run from the count down to one, revisions fall strictly |
| `Mvcc.AtHistory` | internal/etcd/revision.go:19-26 | A read sees the head of the history, its count as version, its last revision as create revision |
| `Mvcc.VersionAtWrite` | internal/etcd/revision.go:29-41 | Reading at the revision of a write sees its version and value |
| `Mvcc.WalkStep` | internal/etcd/revision.go:29-41 | One turn of the walk: a read between the bounds is never empty and adds at most the next older entry |
| `WorkQueue.RunConserved` | internal/workQueue/workQueue.go:12-54 | In every reachable state what was submitted is applied, buffered, held or in flight, the wait group counts the goroutines, and the buffer never exceeds 110 |
| `WorkQueue.NeverStuck` | internal/workQueue/workQueue.go:20-54 | While anything is outstanding some step that makes progress is possible, even with a full buffer of failures |
| `WorkQueue.GoodRunShort` | internal/workQueue/workQueue.go:20-54 | Without failing writes no run is longer than the rank of its start |
| `WorkQueue.Drains` | internal/workQueue/workQueue.go:20-54 | From every reachable state the queue can be drained, and then exactly what was submitted has been applied |
| `WorkQueue.RunInOrder` | internal/workQueue/workQueue.go:20-46 | If no key ever has two outstanding items, the store has each key's items in submission order, less at most the outstanding one |
| `WorkQueue.QueueRefinesReplay` | internal/workQueue/workQueue.go:20-46 | The same for histories: an idle key has the history that replaying its submissions gives |
| `WorkQueue.EitherOrder` | internal/workQueue/workQueue.go:20-46 | From every reachable state, two different outstanding items can reach the store next in either order, whatever the order of submission |
| `WorkQueue.TwoOutstandingReorder` | internal/workQueue/workQueue.go:25-35 | Concrete, from the start: two puts of one key and nothing left outstanding, with the older value newest in the store |
| `VolumeServices.VolumeService.CreateVolume` | internal/services/volume.go:26-51 | One possible Create event |
| `VolumeServices.VolumeService.createVolume` | internal/services/volume.go:54-96 | Number drawn, and taken back if Docker fails; the record has name, size and number |
| `VolumeServices.VolumeService.PatchVolumeSize` | internal/services/volume.go:98-170 | One possible Resize event, with the verdict on the new size |
| `VolumeServices.VolumeService.DeleteVolume` | internal/services/volume.go:174-199 | One possible Delete or Drop event, or a failure that changes nothing, for every name |
| `Volumes.FailedMade` | internal/services/volume.go:60-69 | A failed create leaves the whole state as it was |
| `Volumes.AgreeIff` | internal/services/volume.go:54-96 | An event, the landing of any item included, keeps map, store and records of a volume name in step exactly when it is not one of the drifting ones; once out of step they stay so |
| `Volumes.RunAgrees` | internal/services/volume.go:54-96 | Over any run that sends for a name one record at a time, in whatever order items land, map, store and records of that name agree in the end if and only if no event has drifted |
| `Volumes.RunDraws` | internal/services/volume.go:57-69 | Over any run at all, failed creates, failed copies and deletions included, the numbers drawn for a name in one lifetime are one, two, three and so on |
| `Volumes.DeleteDisagrees` | internal/services/volume.go:181-189 | DeleteVolume sends the delete for the versioned name, so the record outlives the entry |
| `Volumes.ResizeFitsIff` | internal/services/volume.go:116-148 | A completed resize to a size that reads keeps every volume's data within Docker's limit if and only if the recorded size reads or the data fits anyway (a size that does not read is not compared, and Docker's limit decides) |
| `Volumes.AdmitsOverfullIff` | internal/services/volume.go:116-140 | For every state with a record and the old volume: a different size n is admitted with more than n in use if and only if the recorded size reads as at most n, an unreadable one counting as zero |
| `Volumes.OverfillsAdmitted` | internal/services/volume.go:116-140 | When all volumes have room, an unreadable recorded size with more in use than the new size is exactly that condition |
| `Volumes.RunFitsIff` | internal/services/volume.go:116-148 | Over any run that sends for a volume one record at a time, no volume ever holds more than Docker's limit if and only if every completed resize starts from a recorded size that reads, or fits anyway |
| `Volumes.RunFits` | internal/services/volume.go:116-148 | Over any such run of creating, filling and resizing with readable sizes, no volume holds more than its size |
| `Volumes.UnreadableSizeUnchecked` | internal/services/volume.go:116-140 | A recorded size that does not read counts as zero, so any smaller size is admitted whatever is in use |
| `Volumes.LowerCaseShrinks` | internal/services/volume.go:116-140 | A legal run: a volume is created as 100gb, its record lands, two kilobytes are written, and it is shrunk to 1KB |
| `Sizes.ToBytesExact` | utils/file.go:24-48 | Exact for every whole number below 2^53 whose bytes fit into 64 bits |
| `Sizes.ComparesTrueSizes` | utils/file.go:24-48 | So the shrink test compares true sizes, for whole numbers below 2^53 |
| `Sizes.ReadsExactly` | utils/file.go:28-31 | A parser that returns a nearest number with a 53-bit significand for digits returns every whole number below 2^53 itself |
| `Text.VersionedNameInjective` | internal/services/replicaset_nomock.go:72-72 | Different replica sets or versions never share a container name, whatever the names contain |

## Left out

- HTTP routing, authentication, logging, command-line flags and response codes; from the routers only the checks that
  limit what reaches the services (no dash in a new name, sizes of at least two characters).
- Transient failures of inspecting: Docker's inspect fails here only for a container that is missing.
- Several requests at once: every request is one step. No lock in the services spans a request. Only the allocators
  and the work queue are modelled with interleaving.
- WorkQueue: SyncLoop is a protocol of steps rather than a loop, because it never ends and its workers run beside it.
  Shutdown (`ctx.Done`, `Close`) is not part of it.
- Snapshots of the schedulers and version maps that go through the same queue, and reading them back at start. The
  port scheduler's own snapshot function stores the GPU map.
- JSON encoding, the etcd client, timeouts and compaction. A failed put is one that was not applied, and is sent
  again. Revisions count from one.
- strconv.ParseFloat is a parameter; for digits alone it is specified as returning a nearest number with a 53-bit
  significand, for other texts not at all, and infinities and not-a-number are not among its results. A product outside
  64 bits becomes the smallest integer, as on 64-bit x86.
- How Docker reads a volume's size is a parameter, which bounds what can be written to the volume.
- The random source is a stream of numbers. The port loop is proved to end for streams in which every port recurs; a
  stream that starves a port would keep the original busy for ever.
- Ballast stones, merged directories and file copying: each may fail, nothing else. How `DirSize` adds up a directory
  is not modelled; the bytes in use are part of the volume.
- Networks, images, exec, commit, creation times, storage options and restart policies.
- GetPortStatus sorts names before inserting them into a map, which leaves no trace.
- Volume keys that etcd's path joining would identify (names with slashes or dots) are taken to be different.
- The mock build of the GPU scheduler and of runContainer.

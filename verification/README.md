# Verified model of hyperd's protocols and algorithms

hyperd runs pods inside virtual machines. This project models the parts of it that hold real
protocols and algorithms, and proves what they promise over all inputs, all interleavings and
all reachable states.

- **Provisioning** (`Volumes`, `Sync`, `Provisioning*`). Volumes and containers of a pod are
  added to the sandbox in parallel. The interleaving machine has one step per critical
  section; the classes `Volume`, `WaitGroupWithFail` and `FutureSet` are the objects it talks
  about, and volumes that somebody outside the batch is inserting are part of it. Main
  results: notification conservation, what a returning wait means, termination, and exactly
  which batches can get stuck.
- **Configuration files** (`Text`, `ConfigTable`, `GoConfig*`). The INI reader and writer with
  their three quoting styles, comments and numbered keys. Main result: printing then reading
  rebuilds a well-formed configuration, exactly when its text does not start with a byte order
  mark. The class `ConfigFile` is proved to do what the pure reader and writer do.
- **Pod life cycle** (`PodLifecycle*`). Status, sandbox and stop token under any interleaving of
  creation, monitors, pause, stop, remove and waiters. Main results: a pod that is up has a
  sandbox exactly when at most one creation is in flight at a time; the stop token is never
  lost.
- **Worker pool** (`WorkerPool*`). The credit counter and the bounded channel behind one mutex.
  Main results: credits balance, each accepted request is in exactly one place and created
  once, and nothing is stranded.
- **Port mappings** (`PortText`, `PortMerge*`, `PortRules*`). Two parsers and a printer, the
  allocator and run merger on objects changed in place, and the installation of rules with
  roll back. Main results: round trips, preservation of the host-to-container map, and when
  exactly a failed setup or a release restores the chains and the port table.
- **Streams** (`Stdcopy*`, `EscapableCopy`). The resumable demultiplexer of stdcopy framing
  and the copy loop that watches for detach keys. Main results: chunking does not matter,
  exactly the encodings of frame lists are taken whole, no byte is lost, and exactly which
  inputs detach.
- **Smaller cores** (`NameRegistry*`, `Services*`, `ServiceList`, `AufsMount`). Name reservation with roll back,
  services as IPVS commands, and how aufs layers are packed. `Basics` holds what several
  modules use.

Calls that leave the daemon (mounts, the hypervisor, the image engine, iptables, ipvsadm, the
database) are nondeterministic outcomes or small abstract tables. Identifiers are abstract types
or numbers where only their equality matters. Methods that change state are proved against
functions on values; the theorems are about these functions.

Some properties one might expect are false of the code. Each has the exact condition under which
it holds, in terms of what is given before the call, and an input or a run on which it fails:

- a provisioning batch never gets stuck: `ProvisioningProgress.StuckIff`, and
  `ProvisioningProgress.RiskyGetsStuck` for a run of every other batch;
- a pod that is up has a sandbox: `PodLifecycleTheorems.SafeIff`, `PodLifecycleTheorems.Overlap`;
- STOPPING is final: `PodLifecycleTheorems.StoppingIsFinalIff`, `PodLifecycleTheorems.OverlapRises`;
- a STOPPING pod has somebody left who brings it to STOPPED: `PodLifecycleTheorems.AttendedIff`,
  `PodLifecycleTheorems.LateFailure`;
- a request under way has its name registered: `WorkerPoolTheorems.NamesHoldIff`,
  `WorkerPoolTheorems.SharedNameIsLost`;
- a failed reservation of names is invisible: `NameRegistry.InvisibleIff`,
  `NameRegistry.RegisteredPodIsDropped`;
- it takes nothing from another pod, whatever others do in between: `NameRegistrySchedules.HarmlessIff`,
  `NameRegistrySchedules.CarelessHarms`;
- every well-formed configuration is read back: `GoConfigBom.RoundTripIff`, `GoConfigBom.BomIsLost`;
- a release undoes a setup: `PortRulesTheorems.ReleaseRestores`, `PortRulesRelease.ReleaseRestoresIff` with
  commands that fail, `PortRulesTheorems.ReleaseTakesTheRest`;
- a failed setup leaves no port taken: `PortRulesTheorems.PortsLeak`, `PortRulesTheorems.SecondFails`;
- keys that come one at a time detach: `EscapableCopy.CopyDetachesIff`, `EscapableCopy.RepeatedKeyIsMissed`;
- the branch stack is the first branch and every layer: `AufsMount.StackIff`, `AufsMount.LongBranchIsCut`,
  `AufsMount.ColonSplits`.

Where code and comments disagree the code is followed. `waitStopDone` is said to tell that a pod
is stopped, but the token of an earlier stop stays in the channel after a restart, so only the
conservation of the token is claimed. `stoppedChan` is put back by every taker without blocking,
so a second token can be dropped; at least one always remains.

## Model

| member | source | states |
|---|---|---|
| `Volumes.Volume.TransitTo` | daemon/pod/volume.go:236-248 | a transition is ignored, made or illegal by the current status alone, and only a made one writes it |
| `Volumes.Volume.SubscribeInsert` | daemon/pod/volume.go:186-202 | an INSERTED volume needs nothing, an ERROR volume refuses, any other counts the group up and lists it once more; the counters stay covered by the list |
| `Volumes.Volume.SetInserted` | daemon/pod/volume.go:211-222 | each wait group is counted down once per occurrence in the list, none fails, and the list is empty |
| `Volumes.FailAll` | daemon/pod/volume.go:227-231 | each wait group is counted down and gets the error once per occurrence |
| `Volumes.Volume.SetInsertFail` | daemon/pod/volume.go:224-234 | the same for the whole list, which is then empty; only INSERTING becomes ERROR |
| `Volumes.Volume.Umount` | daemon/pod/volume.go:172-184 | CREATED again, or ERROR when the unmount fails |
| `Volumes.Volume.AddVolume` | daemon/pod/volume.go:66-102 | for every status and every outcome of the three external calls: the result, the new status, and that each subscriber is told once; a failed insert leaves the volume CREATED unless its umount fails |
| `Sync.WaitGroupWithFail.Fail` | utils/sync.go:39-47 | the error is appended and the counter goes down by one |
| `Sync.FutureSet.Wait` | utils/sync.go:95-125 | the loop returns what the arrivals say, and has joined everything when it returns without timeout or broken channel |
| `Sync.WaitCollects` | utils/sync.go:103-124 | from any errors collected so far, reports of all remaining tasks add exactly the failures of the failed ones |
| `Sync.WaitAnyOrder` | utils/sync.go:95-125 | when every task reports once, the result is the failures of exactly the failed tasks, in whatever order the reports arrive |
| `ProvisioningSafety.StepInv` | daemon/pod/provision.go:488-530 | every step of the batch keeps the invariant over volumes, wait groups, containers and the future set |
| `ProvisioningSafety.ReachableInv` | daemon/pod/provision.go:488-530 | so it holds in every reachable state |
| `ProvisioningTheorems.Conservation` | daemon/pod/volume.go:186-234 | each wait group's counter is the number of subscriber lists it stands in, it stands in none twice, and an INSERTED volume whose lock is free has no subscriber |
| `ProvisioningTheorems.AddOnlyAfterInsert` | daemon/pod/container.go:867-911 | a container is handed to the sandbox only when every volume it names is INSERTED |
| `ProvisioningTheorems.WaitMeaning` | daemon/pod/container.go:900-907 | the wait returns no error only when all named volumes are INSERTED, and an error names only named volumes that failed; when no named volume can be tried a second time after an insert from outside the batch failed, it returns none exactly when all are INSERTED, exactly when none failed |
| `ProvisioningTheorems.NotifiedAtMostOnce` | daemon/pod/volume.go:186-234 | along any schedule a volume notifies a container at most once |
| `ProvisioningTheorems.FinishedMeaning` | daemon/pod/provision.go:525-530 | when the future set returns without timeout all tasks have ended and exactly the failed ones are reported; without a report every container is added and all volumes it names are inserted |
| `ProvisioningProgress.StepDecreases` | daemon/pod/provision.go:488-530 | every step makes a measure of the batch smaller |
| `ProvisioningProgress.Terminates` | daemon/pod/provision.go:488-530 | no schedule is longer than the measure of the start |
| `ProvisioningProgress.NotStuck` | daemon/pod/container.go:867-911 | in a batch without a risky container every unfinished state has a step other than the timeout |
| `ProvisioningProgress.RiskyGetsStuck` | daemon/pod/volume.go:76-91 | every batch with a risky container has a run into a stuck state |
| `ProvisioningProgress.StuckIff` | daemon/pod/provision.go:488-530 | a batch can get stuck if and only if some container names no ERROR volume and names one that is INSERTING at the start with nobody left who inserts it, or that is CREATED or being inserted from outside the batch with an insert that may fail after its mount |
| `ProvisioningProgress.RunsToTheEnd` | daemon/pod/provision.go:488-530 | otherwise a run that cannot go on has finished or timed out |
| `ConfigTable.Rebuild` | lib/goconfig/conf.go:85-114 | setting every key and comment of a consistent table, section by section, into an empty one gives the same sections, keys, values and comments in the same order |
| `GoConfigRoundTrip.ValueBack` | lib/goconfig/read.go:136-159 | a written value is read back as itself if and only if, having a backquote, it also has a double quote, or, having none, it is trimmed and does not look triple-quoted |
| `GoConfigRoundTrip.SplitWritten` | lib/goconfig/read.go:98-127 | the key of a written line is found again, whichever of the three quotes or none was used |
| `GoConfigRoundTrip.KeyFoundIff` | lib/goconfig/read.go:98-127 | a key that is not numbered is found again if and only if, having a sign and so being quoted, it holds no triple quote and does not end in a quote where triple quotes are used, or, having none, it is trimmed and does not open with a quote |
| `GoConfigRoundTrip.EntryRead` | lib/goconfig/read.go:90-167 | the line written for an entry stores that entry, numbers it if it is a numbered key, and takes the collected comment |
| `GoConfigRoundTrip.CommentRead` | lib/goconfig/read.go:67-74 | a comment of several lines is collected line by line into the same text |
| `GoConfigRoundTrip.RoundTrip` | lib/goconfig/write.go:34-102 | for every well-formed configuration whose text does not start with a byte order mark, with or without blanks around the sign, reading the printed text rebuilds section order, key order, values and all comments |
| `GoConfigBom.FirstKeyDiffers` | lib/goconfig/read.go:98-127 | a key without its first character is never read as that key, whichever quotes the rest of the line seems to have |
| `GoConfigBom.RoundTripIff` | lib/goconfig/read.go:36-40 | a well-formed configuration is rebuilt if and only if its text does not start with a byte order mark |
| `GoConfigBom.BomIsLost` | lib/goconfig/read.go:36-40 | a well-formed configuration that is not rebuilt |
| `GoConfigFile.ConfigFile.SetValue` | lib/goconfig/conf.go:85-114 | the setter is the table operation: a new section and a new key go to the end of their lists, an old key keeps its place |
| `GoConfigFile.ConfigFile.SetSectionComments` | lib/goconfig/conf.go:433-456 | section comments are set with a comment sign, or removed when empty |
| `GoConfigFile.ConfigFile.SetKeyComments` | lib/goconfig/conf.go:462-496 | key comments are set with a comment sign, or removed when empty |
| `GoConfigFile.ConfigFile.ReadEntry` | lib/goconfig/read.go:90-167 | one entry line changes the object as the pure reader says, or fails as it says and changes nothing |
| `GoConfigFile.ConfigFile.ReadLine` | lib/goconfig/read.go:64-167 | one line does |
| `GoConfigFile.ConfigFile.Read` | lib/goconfig/read.go:31-175 | the whole loop does, for every text |
| `GoConfigFile.ConfigFile.Save` | lib/goconfig/write.go:34-102 | the nested loops build exactly the text of the pure writer |
| `PodLifecycleTheorems.StepInv` | daemon/pod/decommission.go:542-584 | with at most one creation in flight every step keeps: one active monitor at most, none while STOPPED or before a creation has started its own, and a sandbox whenever the pod is up |
| `PodLifecycleTheorems.UpHasSandbox` | daemon/pod/provision.go:293-294 | with at most one creation in flight, STARTING, RUNNING and PAUSED imply a sandbox, and so does a stop that has passed its check |
| `PodLifecycleTheorems.Overlap` | daemon/pod/provision.go:241-252 | with two creations in flight a run reaches STARTING without a sandbox |
| `PodLifecycleTheorems.SafeIff` | daemon/pod/provision.go:270-304 | all runs with at most `k` creations in flight are safe if and only if `k` is at most 1 |
| `PodLifecycleTheorems.OnlyAnnounceRaises` | daemon/pod/decommission.go:109-168 | for any number of creations, only the STARTING write leads from a down status to an up one |
| `PodLifecycleTheorems.StoppingIsFinalIff` | daemon/pod/decommission.go:358-377 | a STOPPING pod is never up again before a new creation begins, in all runs, if and only if at most one creation is in flight |
| `PodLifecycleTheorems.LateFailure` | daemon/pod/provision.go:293-303 | a run in which the sandbox is gone before its initialization fails: the pod is STOPPING, no creation is in flight and no monitor is left |
| `PodLifecycleTheorems.AttendedIff` | daemon/pod/provision.go:331-345 | for any number of creations in flight, a STOPPING pod always has an active monitor, or a creation about to start one, if and only if no initialization fails |
| `PodLifecycleTheorems.TokenNeverLost` | daemon/pod/decommission.go:509-525 | no token exists before the first completed cleanup; from then on channel and waiters hold at least one, and the channel holds one whenever no waiter does |
| `PodLifecycleTheorems.XPod.SetInitStatus` | daemon/pod/provision.go:331-345 | the locked part is the machine's step: failure always says STOPPING, success turns only STARTING into RUNNING |
| `PodLifecycleTheorems.XPod.BeginPause` | daemon/pod/decommission.go:109-118 | the check of pause is the machine's step |
| `PodLifecycleTheorems.XPod.PauseFailed` | daemon/pod/decommission.go:127-134 | a failed pause goes back to RUNNING only from PAUSED |
| `PodLifecycleTheorems.XPod.BeginUnpause` | daemon/pod/decommission.go:139-148 | the check of unpause is the machine's step |
| `PodLifecycleTheorems.XPod.UnpauseFailed` | daemon/pod/decommission.go:157-165 | a failed unpause goes back to PAUSED only from RUNNING |
| `PodLifecycleTheorems.XPod.BeginStop` | daemon/pod/decommission.go:364-376 | only RUNNING and STARTING are stopped; STOPPING is no error, anything else is |
| `PodLifecycleTheorems.XPod.EnterCleanup` | daemon/pod/decommission.go:550-557 | cleanup does nothing when STOPPED, and leaves NONE alone |
| `PodLifecycleTheorems.XPod.TagStopped` | daemon/pod/decommission.go:572-577 | cleanup ends STOPPED unless NONE |
| `PodLifecycleTheorems.XPod.PutToken` | daemon/pod/decommission.go:579-583 | and then puts a token into the channel, unless there is one |
| `WorkerPoolSafety.StepInv` | daemon/buffer/buffer.go:38-98 | every step of submitters and handlers keeps lock ownership, the credit balance, the channel conditions and the place of every request |
| `WorkerPoolTheorems.CreditsBalance` | daemon/buffer/buffer.go:53-69 | whenever the lock is free credits and live handlers add up to the maximum, credits never exceed it, and a non-empty channel means no credit, so all handlers are alive |
| `WorkerPoolTheorems.OnePlace` | daemon/buffer/buffer.go:38-98 | an accepted request is in exactly one of channel, one handler, or finished; any other is in none |
| `WorkerPoolTheorems.HandledOnce` | daemon/buffer/buffer.go:74-95 | no request is created twice, the channel never overflows, and what was sent is what was received followed by what is queued |
| `WorkerPoolTheorems.BuffersExact` | daemon/pod/buffer.go:64-95 | the pods' buffer tables hold exactly the requests being submitted, queued or handled |
| `WorkerPoolTheorems.NamesExact` | daemon/buffer/buffer.go:44-85 | a name is in the registry only if a request with it is under way, was created or had its id refused; a name that one request alone has, exactly then |
| `WorkerPoolTheorems.RefusedLeavesNothing` | daemon/buffer/buffer.go:38-69 | a refused request leaves no entry and no id and is never created; it keeps its name exactly when the registry refused the id, and otherwise the name is there only for another request that has it |
| `WorkerPoolTheorems.SharedNameIsLost` | daemon/buffer/buffer.go:44-69 | two requests of one pod with one name: a run in which the first is under way and the second has released the name |
| `WorkerPoolTheorems.NamesHoldIff` | daemon/pod/podlist.go:44-53 | in all runs every request under way or created has its name in the registry, if and only if no two requests have the same name |
| `WorkerPoolTheorems.LockIsolates` | daemon/buffer/buffer.go:53-54 | only the lock's owner changes the counter or the channel |
| `WorkerPoolTheorems.RunsEnd` | daemon/buffer/buffer.go:74-98 | every run is bounded by a measure of its start |
| `WorkerPoolTheorems.NeverStuck` | daemon/buffer/buffer.go:74-98 | as long as anybody submits or any handler lives, some step other than a new request is possible |
| `WorkerPoolTheorems.RestComplete` | daemon/buffer/buffer.go:74-98 | at rest all credits are back, channel and tables are empty, and exactly the accepted requests were created, once each |
| `WorkerPoolTheorems.Buffer.constructor` | daemon/buffer/buffer.go:22-36 | the counter starts at the maximum and a channel size of 0 means 1024 |
| `WorkerPoolTheorems.Buffer.Submit` | daemon/buffer/buffer.go:53-69 | the locked part of a submission is the machine's decision: a credit if there is one, else the channel, else refuse |
| `WorkerPoolTheorems.Buffer.NextOrRetire` | daemon/buffer/buffer.go:87-95 | the locked part of a handler's turn is the machine's: the oldest queued request, or the credit back |
| `PortText.ReadRange` | types/utils.go:135-159 | an accepted range is ordered and within 16 bits |
| `PortText.ReadPrintedRange` | types/utils.go:169-174 | reading undoes printing for every valid range |
| `PortText.ReadPrintedMapping` | types/utils.go:186-209 | reading undoes printing for every valid mapping |
| `PortText.FormalizeIdempotent` | types/utils.go:229-243 | the normal form means the same mapping, is its own normal form, and has no empty field |
| `PortText.SameBounds` | networking/portmapping/host_portmapping_linux.go:33-50 | on non-empty text the two range parsers agree except that the host side also takes ranges that run backwards |
| `PortText.EmptyRange` | networking/portmapping/host_portmapping_linux.go:33-50 | the empty text is 1025-65535 for one parser and an error for the other |
| `PortText.RulesForMapping` | networking/portmapping/host_portmapping_linux.go:76-121 | rules exist for a mapping exactly when its host port is determined, and send its host ports to its container ports |
| `PortText.RulesForFormalized` | networking/portmapping/host_portmapping_linux.go:54-74 | a formalized mapping passes the host-side parser with the same bounds |
| `PortMergeTheorems.ClassifyMeaning` | types/utils.go:262-283 | the first loop succeeds exactly when no two determined mappings share a host port, and then holds the ranges, singles and undetermined mappings in order |
| `PortMergeTheorems.PickIsFirstFit` | types/utils.go:285-296 | the ports handed out are the unique first fit: in range, used by nothing before, everything lower in the range used |
| `PortMergeTheorems.PickFails` | types/utils.go:297-299 | allocation fails exactly when first fit meets a range with no free port |
| `PortMergeTheorems.PickFromOneRange` | types/utils.go:136-137 | when all undetermined mappings offer the same range, allocation succeeds exactly when the range has enough free ports |
| `PortMergeTheorems.JoinMaps` | types/utils.go:302-320 | joining runs changes no port's destination |
| `PortMergeTheorems.JoinRuns` | types/utils.go:302-320 | the runs are apart, in host order, equally long on both sides, and none continues another |
| `PortMergeTheorems.MergeSucceeds` | types/utils.go:253-323 | merging succeeds exactly when determined host ports are disjoint and first fit is never blocked |
| `PortMergeTheorems.MergeMeaning` | types/utils.go:253-323 | a host port goes to a container port in the result exactly when a determined mapping sent it there or it was picked for an undetermined one |
| `PortMergeTheorems.MergeDisjoint` | types/utils.go:253-323 | host ranges of the result are disjoint, and no two runs built from single ports could still be joined |
| `PortMergeTheorems.MergeProtocol` | types/utils.go:253-323 | mappings of one protocol stay mappings of that protocol |
| `PortMergeTheorems.FirstFitIsGreedy` | types/utils.go:285-300 | first fit can refuse mappings that another choice of ports would satisfy |
| `PortMergeObjects.ClassifyAll` | types/utils.go:262-283 | the first loop over objects does what the function on values says, and gives every object one place |
| `PortMergeObjects.Place` | types/utils.go:286-299 | the inner loop gives the object the lowest free port of its range, or leaves it undetermined |
| `PortMergeObjects.AllocateAll` | types/utils.go:285-300 | the second loop, which changes objects in place, does what the function on values says and leaves the results alone |
| `PortMergeObjects.JoinAll` | types/utils.go:302-320 | the third loop, which grows the run in hand in place, yields the runs of the old values |
| `PortMergeObjects.MergeContinuousPorts` | types/utils.go:253-323 | the objects returned hold exactly what merging the old values gives, or it fails exactly when that does |
| `PortRules.HitsIsOverlap` | networking/portmapping/iptables/iptables_linux.go:131-133 | the three-part test says exactly whether two port ranges meet |
| `PortRules.NormalIsStable` | networking/portmapping/host_portmapping_linux.go:90-106 | filling in the end of a range in place does not change the rules made next time |
| `PortRulesTheorems.DelBack` | networking/portmapping/host_portmapping_linux.go:138-150 | deleting at least what was put in front gives the chain back exactly when no extra deletion finds a rule in it |
| `PortRulesTheorems.RevertRestores` | networking/portmapping/host_portmapping_linux.go:138-150 | deleting the inserted rules in the order they were inserted restores any chain, even with equal rules |
| `PortRulesTheorems.InstalledFresh` | networking/portmapping/host_portmapping_linux.go:160-163 | only rules that were not in the chain are installed |
| `PortRulesTheorems.SkippedIff` | networking/portmapping/host_portmapping_linux.go:160-163 | in a setup that succeeds, the mappings found in place are those whose rule was in the nat chain at the start or repeats an earlier mapping |
| `PortRulesTheorems.ReleaseRestores` | networking/portmapping/host_portmapping_linux.go:208-239 | after a successful setup a release whose commands all work restores the ports exactly when none was in use before, the nat chain exactly when none of the rules was in it, and the filter chain exactly when it held no filter rule of a mapping that was in the nat chain already or repeats an earlier one |
| `PortRulesTheorems.ReleaseTakesTheRest` | networking/portmapping/host_portmapping_linux.go:208-239 | a release that takes away a rule, its filter rule and a port that were there before the setup |
| `PortRulesTheorems.PortsLeak` | networking/portmapping/host_portmapping_linux.go:183-201 | after a failed setup the port table is as before exactly when, judged against the state at the start, each mapping that would be installed comes behind one that would fail |
| `PortRulesTheorems.SecondFails` | networking/portmapping/host_portmapping_linux.go:165-201 | two mappings of one host port: the setup fails and the port stays taken |
| `PortRulesHost.Host.AllocateMap` | networking/portmapping/portmapper/portmapper.go:35-58 | a free port is entered with its target, a taken one is refused and keeps its entry |
| `PortRulesHost.Host.Claim` | networking/portmapping/host_portmapping_linux.go:183-202 | either all host ports of the mapping are taken with their targets, or the ports taken so far are given back |
| `PortRulesHost.RevertLeaves` | networking/portmapping/host_portmapping_linux.go:138-150 | reverting leaves exactly the rules of the undo commands that fail and those of inserts that put in a rule but were reported as failed, in front of chains that are as they were |
| `PortRulesHost.RevertRestoresIff` | networking/portmapping/host_portmapping_linux.go:138-150 | the chains are as they were exactly when no reverting command fails and no insert reported as failed put in its rule |
| `PortRulesHost.RollBackIff` | networking/portmapping/host_portmapping_linux.go:133-206 | a failed setup leaves chains and ports as they were exactly when, besides, each mapping that would be installed comes behind one that would fail |
| `PortRulesHost.Host.Revert` | networking/portmapping/host_portmapping_linux.go:138-150 | the undo commands run in order, on both chains, and one that fails is passed over |
| `PortRulesHost.Host.Setup` | networking/portmapping/host_portmapping_linux.go:133-206 | either every mapping is in place, or the inserted rules are reverted but for the commands that fail and the inserts that were reported as failed, and of the ports only those of the mappings before the failing one are taken |
| `PortRulesHost.Host.Release` | networking/portmapping/host_portmapping_linux.go:208-239 | every mapping's ports are freed and each of its two rules is deleted once if the command works, whether or not they were installed |
| `PortRulesRelease.DelBackIff` | networking/portmapping/host_portmapping_linux.go:208-239 | whatever is deleted from a chain, what was there before some rules were put in front comes back exactly when all of these are deleted and no other deletion finds a rule |
| `PortRulesRelease.InstalledIsFresh` | networking/portmapping/host_portmapping_linux.go:152-203 | a setup that succeeds installs exactly the rules that were not in the nat chain, each at its first mapping |
| `PortRulesRelease.ReleaseRestoresIff` | networking/portmapping/host_portmapping_linux.go:208-239 | after a successful setup, with any of the delete commands failing: the ports are restored exactly when none was in use, the nat chain exactly when each rule is deleted if and only if it was not in it, and the filter chain exactly when the deletions cover the filter rules put in and find no other |
| `Stdcopy.RunAppend` | integration/client.go:186-238 | bytes in two pieces are taken one piece after the other, unless the first ends in an error |
| `Stdcopy.ChunksDoNotMatter` | integration/client.go:186-238 | for any split into chunks, outputs, final state and first error are those of one call on the whole |
| `Stdcopy.DecodeEncoded` | integration/client.go:186-238 | any list of frames, encoded and cut anywhere, is decoded to the payloads of each stream |
| `Stdcopy.TakenIffEncoded` | integration/client.go:186-238 | exactly the encodings of frame lists are taken whole without error |
| `StdcopyExtractor.Extractor.ReadHead` | integration/client.go:192-212 | a complete header is parsed from the bytes kept and the new ones, or rejected |
| `StdcopyExtractor.Extractor.ReadBody` | integration/client.go:214-228 | as much payload as there is goes to the current stream |
| `StdcopyExtractor.Extractor.Extract` | integration/client.go:186-238 | one call yields outputs, state and error of the byte-by-byte meaning, from any state |
| `EscapableCopy.BytesKept` | daemon/pod/container.go:1406-1458 | on a normal or failed end the output is everything read, in order |
| `EscapableCopy.BytesKeptOnDetach` | daemon/pod/container.go:1415-1427 | on detach it is everything but the last reads, which brought the keys one at a time |
| `EscapableCopy.DetachIff` | daemon/pod/container.go:1417-1427 | from any point with some keys matched, the copy detaches at once exactly when the missing keys come one at a time |
| `EscapableCopy.CopyDetachesIff` | daemon/pod/container.go:1406-1458 | the copy detaches if and only if the keys come one at a time behind reads that split into groups, each a proper part of the keys read one at a time and then an open read that is not the next key |
| `EscapableCopy.RepeatedKeyIsMissed` | daemon/pod/container.go:1417-1421 | keys that come one at a time and do not detach: a read that breaks off the keys is passed on even if it is the first key |
| `EscapableCopy.WritesDecide` | daemon/pod/container.go:1429-1447 | the copy stops at the first piece that is not written in full, with the bytes written so far and the right error; if all are, it ends as its input says |
| `EscapableCopy.CopyEscapable` | daemon/pod/container.go:1406-1458 | the loops have these properties for every sequence of reads and of write results, and report the number of bytes written, or 0 on detach |
| `NameRegistry.NoDirectMove` | daemon/pod/podlist.go:33-129 | no operation hands an id, a name or a pod id directly from one owner to another |
| `NameRegistry.OwnedApart` | daemon/pod/podlist.go:33-129 | over any run of operations an id, a name or a pod id with two different owners was unowned in between |
| `NameRegistry.FailsIff` | daemon/pod/provision.go:347-375 | a reservation fails exactly when another pod object has the pod id or another pod has some container's name or non-empty id, and rolls back the containers before the first such one |
| `NameRegistry.InvisibleIff` | daemon/pod/provision.go:347-375 | a failed reservation leaves the registry as it was if and only if another object has the pod id, or the registry knew neither the pod, nor its containers, nor any id or name listed before the first that another pod has |
| `NameRegistry.RegisteredPodIsDropped` | daemon/pod/provision.go:65-69 | a registered pod that reserves again, with a name another pod has, loses its own entry |
| `NameRegistry.StrangerInvisible` | daemon/pod/provision.go:347-375 | for a pod the registry has nothing of, and without an empty container id, a failed reservation is invisible for every container list |
| `NameRegistry.PodList.AddPod` | daemon/pod/podlist.go:88-100 | a pod id is refused only when another pod object has it |
| `NameRegistry.PodList.AddContainer` | daemon/pod/podlist.go:55-72 | id and name are entered together or not at all; an empty id is not entered |
| `NameRegistry.PodList.ChangeId` | daemon/pod/podlist.go:74-86 | the old id goes and the new one comes, unless another pod has the new one |
| `NameRegistry.PodList.ReserveNames` | daemon/pod/provision.go:347-368 | the loop with its roll back does what these results are about, when nobody else acts |
| `NameRegistrySchedules.FinishedIsReservedNames` | daemon/pod/provision.go:347-375 | the machine with one step per locked call, left alone, ends in the registry of the whole reservation |
| `NameRegistrySchedules.CarelessHarms` | daemon/pod/provision.go:370-375 | if names or ids repeat, or are the pod's already, before a container that may fail, some schedule makes the roll back take a key from another pod |
| `NameRegistrySchedules.HarmlessIff` | daemon/pod/provision.go:347-375 | whatever operations others do between the calls, as long as they spare the pod's keys, no call takes a key from another pod, if and only if the list is not of that kind; the containers a pod has already have ids |
| `ServicesTheorems.AddExec` | daemon/pod/servicediscovery.go:68-77 | the patch that adds services applies exactly when they are good, their keys differ and are new, and adds what they denote |
| `ServicesTheorems.DelExec` | daemon/pod/servicediscovery.go:78-80 | the patch that deletes present services applies and takes out exactly their keys |
| `ServicesTheorems.AddAgrees` | daemon/pod/servicediscovery.go:88-113 | adding succeeds exactly when the sandbox calls work, services are good and no two table keys are then equal, and the table is the one the new specification denotes; otherwise nothing changes exactly when a key as written is taken, a service has no commands, the table cannot be listed, or the saved table is restored |
| `ServicesTheorems.DelAgrees` | daemon/pod/servicediscovery.go:115-140 | deleting succeeds exactly when the sandbox calls work, and the table is the one the remaining services denote; otherwise nothing changes exactly when the table cannot be listed or is restored |
| `ServicesTheorems.UpdateAgrees` | daemon/pod/servicediscovery.go:144-166 | updating succeeds exactly when the sandbox calls work, services are good and table keys differ, and changes nothing under the same conditions as adding |
| `ServicesTheorems.ApplyAgrees` | daemon/pod/servicediscovery.go:168-170 | so does applying the specification to an empty table, which is left in an unknown state exactly when the commands were sent, failed and could not be taken back |
| `ServicesTheorems.RunAgrees` | daemon/pod/servicediscovery.go:88-198 | after any run of operations that succeed, are refused or are taken back table and specification agree and keys are unique |
| `ServiceList.PodServices.Commit` | daemon/pod/servicediscovery.go:172-198 | the patch is built service by service and run as a whole; without commands for a service, when the table cannot be listed, or when the saved table is restored, nothing changes |
| `ServiceList.PodServices.CommitToVm` | daemon/pod/servicediscovery.go:200-245 | the commands take effect exactly when listing and running them works and none fails; otherwise the table is the old one if it could not be listed or clearing it and replaying what was saved works |
| `ServiceList.PodServices.Replay` | daemon/pod/servicediscovery.go:228-241 | clearing and replaying gives the saved table when the replay works |
| `ServiceList.PodServices.Add` | daemon/pod/servicediscovery.go:88-113 | the loops do this, on a running pod and on one that is not running, and a failure leaves the specification |
| `ServiceList.PodServices.Del` | daemon/pod/servicediscovery.go:115-140 | the loops do this for deletion |
| `ServiceList.PodServices.Update` | daemon/pod/servicediscovery.go:144-166 | the loops do this for update |
| `AufsMount.FitIsMost` | storage/aufs/aufs.go:103-111 | the first mount takes as many layers as fit: the next one would not |
| `AufsMount.BelowPage` | storage/aufs/aufs.go:85-125 | for a label that needs no escapes the first mount's options are at least 15 bytes below the page size |
| `AufsMount.StackIff` | storage/aufs/aufs.go:78-139 | if all mounts succeed the branch stack is the first branch followed by every layer once in order, if and only if the first branch fits the buffer and no path has a colon or a comma |
| `AufsMount.LongBranchIsCut` | storage/aufs/aufs.go:96-97 | with a page of 4096 bytes a first branch of 4040 characters is mounted without its last one |
| `AufsMount.ColonSplits` | storage/aufs/aufs.go:96-97 | a first branch with a colon is not mounted as that branch |
| `AufsMount.MountAll` | storage/aufs/aufs.go:78-139 | the nested loops over the byte buffer end, and make exactly these mounts, or those before the first that fails |

## Left out

- REST and gRPC servers, client commands, generated code: data carriers without logic of their own.
- Docker engine, hypervisor, leveldb, real iptables and ipvsadm, device mapper: foreign calls with abstract outcomes.
- Wall-clock timeouts: one nondeterministic step in provisioning, absent elsewhere; logging and stream broadcasting are absent.
- The renaming of colliding task ids in `FutureSet.Add`: tasks of a batch have distinct identifiers.
- `GetSection`, `GetKeyList`, `DeleteKey` and `%(var)s` expansion of configuration files; the `\r\n` line break of Windows; invalid UTF-8.
- GoConfigRoundTrip.RoundTrip: of the conditions that make a configuration well formed only those on single values and keys are proved necessary; a configuration outside the others can come back by accident of its other entries.
- ProvisioningTheorems.WaitMeaning: for a volume that an insert from outside the batch fails on and the batch inserts later, an error may be reported though the volume is INSERTED; the two equivalences are stated without such volumes.
- WorkerPoolTheorems.RefusedLeavesNothing: the release of id and name and of the buffer entry are one step, because nothing looks at them in between.
- PortMergeObjects.MergeContinuousPorts: the two range objects of a mapping are values of its fields, because no two mappings share them.
- PortRulesHost.Host.Setup: the command lines are structured rules, and a command either does its work or leaves its chain alone, whatever it reports; the in-place write of a range's end is covered by PortRules.NormalIsStable only.
- `PortMapping.EqualTo`, `SameDestWith`, `ToPodPortmappings` and `MergePortmappings`.
- NameRegistrySchedules.HarmlessIff: others neither take a key of the pod away while it reserves nor register the empty id.
- ServiceList.PodServices.Commit: the text of the commands is not modelled, and when the saved table cannot be restored the table may be any.
- AufsMount.BelowPage: the quoted label is given, with two characters more than the label.
- The reading of a pod's persisted state, the start and stop of single containers, image export: dominated by storage and engine calls.

# Verified model of the otsdaq configuration and read-out core

otsdaq is a data-acquisition framework. This project models, in Dafny, the parts of it whose
correctness depends on more than one function at a time, and proves what they promise for every
input, every schedule and every run. Verify everything with `dafny verify dfyconfig.toml`.

| file | what it models |
|---|---|
| `MemberLoad.dfy`, `SlotPool.dfy` | loading the member tables of a group, sequentially and through a pool of slots served by detached workers; the pool refines the sequential path for every schedule |
| `GroupTypes.dfy` | the classifier of groups, with exactly which member maps give which answer |
| `Activation.dfy` | loading, activating and giving up groups of the four types, over whole runs |
| `Flatten.dfy`, `Aliases.dfy`, `Directories.dfy` | flattening a database: renumbering tables and groups, rewriting the alias tables in place, and the directory renames around it |
| `VersionAllocation.dfy` | optimistic allocation of table versions by any number of concurrent writers |
| `Runners.dfy` | the life of the DAQInterface runner threads and the tear-down of the interpreter |
| `UdpReceiver.dfy`, `UdpFragment.dfy` | the sequence window, the hand-off between the two threads, and the layout of packets in a fragment |
| `BitFields.dfy` | inserting, reading and reversing bit fields in words and in byte strings |
| `Common.dfy`, `Numbers.dfy` | what the others share: optional values, maps that only grow, the special 32-bit numbers, keys and versions as text |
| `Text.dfy`, `ActiveGroups.dfy`, `GroupHistory.dfy` | two line-oriented files: what is written is what is read back |

How the source is represented:

- Concurrency is a transition system: a state, a step per atomic action (one mutex section, one
  atomic flag, one unlocked read of a shared map), and a run over an arbitrary schedule. Statements
  about runs hold for all schedules, including unfair ones.
- Objects that the source updates in place are classes (`TableStore`, `ConfigurationManager`,
  `Flattener`, `AliasView`, `FileSystem`, `VersionStore`, `Receiver`, `Writer`). Each method is tied
  to a specification function, about which the lemmas speak.
- The database, the tables' own initialisation, the clock, the network and POSIX refusing a rename are
  parameters, so what is proved holds whatever they do. What is asked of the database in `Activation`
  is shown to be met by both loading paths (`SequentialIsLoad`, `PoolIsLoad`).
- Machine widths appear where they matter: the `unsigned` row counter that wraps at 0, the 8-bit
  sequence numbers, the 28-bit size field, 32-bit versions and keys, shifts that leave the word.

Where the code does not do what its comments or its purpose suggest, the model follows the code, and
the condition under which the promise holds is proved:

- A whole reserved family preceded by foreign table names is classified as a configuration group
  (`GetTypeOfGroup`, `BackboneOverlooked`). Activating such a group takes over tables of another type
  (`InsideClass`, `OverlookedTakesOver`, `OverlookedWitness`).
- A failed activation leaves tables active without a group, and the next success does not clear them
  (`ActiveAfter`, `StaleAfterFailure`, `StaleWitness`, and for every run `ActiveTablesExactly`).
- A load that only warned is remembered by the flattening tool, in its renamings and in the tables' caches,
  and a later clean group that shares a table version then points at the wrong content
  (`RenamingExactly`, `GroupExactly`, `RememberedMistake`, `CachedMistake`).
- The flattening tool never clears the member aliases between groups, and the first value read wins
  (`FirstAliasWins`, `OwnAliasesExactly`, `ForeignAlias`).
- A text packet with sequence number 0 is cut to its first byte (`ZeroSequenceNumber`, `TextKeeps`).
- Fewer than four received bytes fail the assertion that guards the fragment's data (`ProcessData`).
- The string form of bit insertion is right only inside one byte, or across two bytes with an end that
  is not byte-aligned (`StoredExactly`); the 64-bit word form does not cut the value to the field
  (`UnmaskedAgrees`); reversing is meaningful only from bit 0 (`ReverseInRange`).
- An empty group name with an ordinary key makes the reader of the active-groups file take stale text
  for the name (`EmptyNameWithKey`).
- If the path to move the database aside to already exists and the directory to swap in is empty, the
  first group can be loaded from the wrong database (`ProtocolExactly`, `LoadsFromElsewhere`).
- Without a database to swap in, the flattening tool throws at the group that follows loaded ones of which
  nothing was saved (`GoesThroughExactly`).
- A version that is not persistent still makes the tool write its marker files; if the first rename did not
  work, that is into the original database (`EveryRunSafe`).
- A call that saves a new version next to a stored scratch version can give up after three saves by
  others instead of four (`FourLandedExactly`, `ThreeAreEnough`).

## Model

| member | source | states |
|---|---|---|
| MemberLoad.TableStore.LoadOne | otsdaq/ConfigurationInterface/ConfigurationManager.cc:1765-1880 | one member: when it throws, the entry it leaves for the member, the one warning it adds, and that every other entry is unchanged |
| MemberLoad.TableStore.LoadSequentially | otsdaq/ConfigurationInterface/ConfigurationManager.cc:1758-1882 | the loop over the members changes the name-to-table map exactly as the recursive specification, with partial effects left in place when it throws |
| SlotPool.RunKeepsInv | otsdaq/ConfigurationInterface/ConfigurationManager.cc:1889-1986 | every schedule of main thread and workers keeps the invariant on slots, flags, workers, the shared map and the collected errors |
| SlotPool.SlotPoolSafety | otsdaq/ConfigurationInterface/ConfigurationManager.cc:1889-1986 | the slot index is in range and free when taken, no slot is shared by two running workers, at most as many workers run as there are slots, and the final wait passes only when all members were dispatched and all workers are done |
| SlotPool.DispatchedOnce | otsdaq/ConfigurationInterface/ConfigurationManager.cc:1920-1968 | a dispatched member keeps its one worker, slot and pointer for the rest of the run |
| SlotPool.PoolRefinesSequential | otsdaq/ConfigurationInterface/ConfigurationManager.cc:1758-1998 | for every schedule the finished pool throws, without a warnings string, exactly when the sequential path does; unless the sequential path throws, both have the same map, and with a warnings string the same warnings |
| SlotPool.SequentialInTermsOfAnswers | otsdaq/ConfigurationInterface/ConfigurationManager.cc:1758-1882 | the sequential load throws exactly for a fetch that raises, gives no table or gives one without an active view, of which only the last counts with a warnings string; otherwise each member ends with the table it was given, if any |
| SlotPool.NeverStuck | otsdaq/ConfigurationInterface/ConfigurationManager.cc:1920-1986 | from every reachable state some continuation finishes the load: no wait is a deadlock |
| SlotPool.FairRunsFinish | otsdaq/ConfigurationInterface/ConfigurationManager.cc:1920-1986 | every unending schedule that, round after round, gives the main thread and each running worker a turn brings the load to its end |
| SlotPool.WorkerKeepsInv | otsdaq/ConfigurationInterface/ConfigurationManager.cc:3268-3445 | every step of a worker, through all its error paths, keeps the invariant and its done flag tells the truth |
| GroupTypes.GetTypeOfGroup | otsdaq/ConfigurationInterface/ConfigurationManager.cc:673-844 | for every sorted member map: context, backbone or iterate exactly for that whole family (context with or without the optional table), configuration exactly for a non-empty map without reserved names or with one whole family after foreign names only, incomplete otherwise |
| GroupTypes.CheckFamily | otsdaq/ConfigurationInterface/ConfigurationManager.cc:685-782 | the part of the loop that each family has: flags and count track the names seen, and giving up early is right |
| GroupTypes.LaterStranger | otsdaq/ConfigurationInterface/ConfigurationManager.cc:704-721 | a foreign name after a family member rules out every answer |
| GroupTypes.WrongCount | otsdaq/ConfigurationInterface/ConfigurationManager.cc:784-835 | a family that is touched but not counted in full rules out every answer |
| GroupTypes.StrangersFirst | otsdaq/ConfigurationInterface/ConfigurationManager.cc:784-844 | what passes all checks without being one family only is a whole family with all strangers before it |
| GroupTypes.ProgrammedFamilies | otsdaq/ConfigurationInterface/ConfigurationManager.cc:110-144 | the programmed families are disjoint and not empty, as the classifier needs |
| GroupTypes.BackboneOverlooked | otsdaq/ConfigurationInterface/ConfigurationManager.cc:725-752 | a whole backbone with one earlier foreign table is overlooked |
| GroupTypes.BackboneMixed | otsdaq/ConfigurationInterface/ConfigurationManager.cc:725-752 | the same with the foreign table in between has no type |
| Activation.ConfigurationManager.DestroyTableGroup | otsdaq/ConfigurationInterface/ConfigurationManager.cc:516-640 | throws exactly if the name is not empty and is not that of an active group; otherwise forgets every group of that name and deactivates, or deletes, exactly the tables of their classes |
| Activation.DestroyedTables | otsdaq/ConfigurationInterface/ConfigurationManager.cc:546-640 | for every type and table of its class: the group is forgotten and the table deactivated or deleted exactly if the name is empty or that of the type's group; otherwise both are kept |
| Activation.ConfigurationManager.ActiveContextMemberNames | otsdaq/ConfigurationInterface/ConfigurationManager.cc:4328-4345 | together with the optional table, exactly the context class, whether or not the optional table is active |
| Activation.ConfigurationManager.InitSequentially | otsdaq/ConfigurationInterface/ConfigurationManager.cc:2498-2566 | throws exactly for a scratch member under tracking, or a run-time error without a warnings string |
| Activation.ConfigurationManager.InitThreaded | otsdaq/ConfigurationInterface/ConfigurationManager.cc:2567-2680 | checks all scratch versions first; under every schedule of the workers, throws exactly for a scratch member under tracking, a missing table, or any error without a warnings string |
| Activation.InitPoolErrors | otsdaq/ConfigurationInterface/ConfigurationManager.cc:2567-2680 | for every schedule of the slot pool that runs `init`, the collected errors are non-empty if and only if some table does not initialise well |
| Activation.ConfigurationManager.LoadTableGroup | otsdaq/ConfigurationInterface/ConfigurationManager.cc:2088-2787 | one request, through all its early returns and failures, takes the manager from the state before to the specified state and ending |
| Activation.EndingExactly | otsdaq/ConfigurationInterface/ConfigurationManager.cc:2088-2787 | every ending of a request, if and only if a condition on what was asked and what the world answered holds: activated, loaded only, not loaded, or failed, and when the failure is thrown |
| Activation.ConfigurationManager.Perform | otsdaq/ConfigurationInterface/ConfigurationManager.cc:2282-2733 | once the type is known: deactivate the old group, load, initialise, record, with partial effects kept on failure |
| Activation.InsideClass | otsdaq/ConfigurationInterface/ConfigurationManager.cc:559-579 | the members of a group are inside its type's table class if and only if no family was overlooked |
| Activation.GroupsAfter | otsdaq/ConfigurationInterface/ConfigurationManager.cc:2282-2733 | the recorded group of every type after a request: the requested pair exactly on success, no group exactly if it shares its name with the replaced group, unchanged otherwise |
| Activation.TablesAfter | otsdaq/ConfigurationInterface/ConfigurationManager.cc:546-605 | a request touches no table of another type's class unless names are shared or a family was overlooked |
| Activation.OverlookedTakesOver | otsdaq/ConfigurationInterface/ConfigurationManager.cc:2315-2320 | an overlooked group that activates leaves a table of another type's class at its own version |
| Activation.OverlookedWitness | otsdaq/ConfigurationInterface/ConfigurationManager.cc:725-844 | the programmed backbone after one foreign table activates as a configuration and leaves a backbone table at its own version |
| Activation.ActiveAfter | otsdaq/ConfigurationInterface/ConfigurationManager.cc:2282-2315 | after a clean success the class holds the members at their versions; another table of the class is active exactly if it was and there was no group to replace |
| Activation.StaleAfterFailure | otsdaq/ConfigurationInterface/ConfigurationManager.cc:2295-2315 | members of a failed activation stay active through the next success |
| Activation.StaleWitness | otsdaq/ConfigurationInterface/ConfigurationManager.cc:2295-2315 | two configuration requests from the empty manager, the first with a table that raises, end with the first's table active and the second's group recorded |
| Activation.RunIsOrderly | otsdaq/ConfigurationInterface/ConfigurationManager.cc:2693-2733 | over every run each type has no group or one whose name stands for that type |
| Activation.ActivationsAreIndependent | otsdaq/ConfigurationInterface/ConfigurationManager.cc:2234-2787 | after every run, a request leaves name, key and tables of the other types unchanged, records exactly the requested pair on success, and otherwise leaves its type unchanged or without a group |
| Activation.NoScratchActivated | otsdaq/ConfigurationInterface/ConfigurationManager.cc:2501-2520 | success under tracking means no scratch member |
| Activation.Provenance | otsdaq/ConfigurationInterface/ConfigurationManager.cc:2498-2733 | every group recorded at the end of a run was put there by a successful request for it, unchanged since, without scratch members if tracked |
| Activation.TableAfterEvent | otsdaq/ConfigurationInterface/ConfigurationManager.cc:2282-2733 | what one event does to one table: loaded with a view or without, cleared with its class, or left alone |
| Activation.ActiveTablesExactly | otsdaq/ConfigurationInterface/ConfigurationManager.cc:516-640 | over every run, with failed, warned and merely loading requests: a table is active at a version if and only if the last event that loaded it or gave up a group of its class is a load of that version |
| Activation.ActiveTablesAreMembers | otsdaq/ConfigurationInterface/ConfigurationManager.cc:2282-2733 | over every run whose requests either succeed without warnings or change nothing, with any deactivations: the active tables of each class are exactly the members of the recorded group, each at its version, and none without a group |
| Activation.SequentialIsLoad | otsdaq/ConfigurationInterface/ConfigurationManager.cc:1758-1882 | the sequential path touches members only and leaves each at its version unless it throws or warns |
| Activation.PoolIsLoad | otsdaq/ConfigurationInterface/ConfigurationManager.cc:1882-1998 | so does the slot pool, for every schedule |
| Flatten.Flattener.SaveTables | tools/otsdaq_flatten_system_aliases.cc:471-510 | the member loop re-uses an earlier renaming or saves under the flat version, and stops at the first failed save, as specified |
| Flatten.Flattener.SaveLoadedGroup | tools/otsdaq_flatten_system_aliases.cc:466-590 | members, metadata table, group, new key: each only if all before it were saved |
| Flatten.Flattener.FlattenGroups | tools/otsdaq_flatten_system_aliases.cc:342-595 | the loop over the groups does what the run function says, which `FlatVersion` and `NumberedExactly` describe: a failed load is passed over and uses up no version |
| Flatten.FlatVersion | tools/otsdaq_flatten_system_aliases.cc:449-595 | after every run the flat version has gone up by the number of loads that did not raise |
| Flatten.NumberedExactly | tools/otsdaq_flatten_system_aliases.cc:449-595 | in every run, a group is migrated if and only if its load did not raise and everything its turn had to save found its place free and was accepted, and its new key is the first flat version plus the number of loads before it that did not raise |
| Flatten.RenumberedExactly | tools/otsdaq_flatten_system_aliases.cc:488-508 | in every run, a table renamed in a turn gets the first flat version plus the number of loads before that turn that did not raise |
| Flatten.MembersGoThrough | tools/otsdaq_flatten_system_aliases.cc:471-510 | the member loop goes through if and only if every save in it finds its place free and is accepted |
| Flatten.MembersStored | tools/otsdaq_flatten_system_aliases.cc:488-505 | every new renaming maps a member to the flat version, where the content of its view is stored |
| Flatten.MembersRenamed | tools/otsdaq_flatten_system_aliases.cc:475-506 | if no save failed, the rewritten member map is exactly the image of the members |
| Flatten.EveryRunAccounted | tools/otsdaq_flatten_system_aliases.cc:342-595 | in every run, including failed saves: the renaming is injective per table name and points at what the introducing load held, new keys are distinct, each migrated group is the image of its members plus the metadata table, and the target database only grows |
| Flatten.RunsOnlyGrow | tools/otsdaq_flatten_system_aliases.cc:342-595 | no renaming, stored table, stored group or new key ever changes in the rest of a run |
| Flatten.RenamingExactly | tools/otsdaq_flatten_system_aliases.cc:488-505 | in every run, with nothing asked of the database, a renaming keeps its content if and only if the load of the turn that made it held the right view of the table |
| Flatten.GroupExactly | tools/otsdaq_flatten_system_aliases.cc:475-510 | in every run, a migrated group whose load listed the right members, clean or warned, keeps its meaning if and only if each member was right when its turn came: faithful in the renaming already remembered or, without one, in the view the load held |
| Flatten.FlatteningKeepsMeaning | tools/otsdaq_flatten_system_aliases.cc:342-595 | in every run, whatever unrelated loads warn and whatever saves are refused: a renamed table that no warned load listed keeps its content, and a migrated group with a clean load keeps its meaning if no earlier warned load listed one of its table versions |
| Flatten.RememberedMistake | tools/otsdaq_flatten_system_aliases.cc:475-486 | a run in which a warned load makes a later clean group wrong |
| Flatten.CachedMistake | otsdaq/ConfigurationInterface/ConfigurationInterface.icc:131-183 | a run in which a warned load, nothing of which was saved, makes a later clean load save wrong content from the table cache |
| Flatten.FirstAliasWins | otsdaq/Macros/StringMacros.icc:399-412 | an alias read for several groups keeps the value of the first |
| Flatten.OwnAliasesExactly | otsdaq/ConfigurationInterface/ConfigurationManager.cc:2148-2152 | the saved metadata carries the group's own aliases if and only if all aliases held before are its own too |
| Flatten.ForeignAlias | otsdaq/ConfigurationInterface/ConfigurationManager.cc:2148-2152 | the second of two groups is saved with an alias only the first has |
| Aliases.AliasView.Find | tools/otsdaq_flatten_system_aliases.cc:724-740 | the search returns the renaming of the first entry the row names, if any |
| Aliases.AliasView.RewriteRow | tools/otsdaq_flatten_system_aliases.cc:722-744 | one round, with the unsigned row counter wrapping below row 0: rename and go on, or delete and stay |
| Aliases.AliasView.Rewrite | tools/otsdaq_flatten_system_aliases.cc:707-779 | the in-place loop terminates and leaves the rewritten rows |
| Aliases.RewrittenRow | tools/otsdaq_flatten_system_aliases.cc:721-744 | a surviving row keeps its order and all but its number column, and is renamed exactly once |
| Aliases.RewrittenFrom | tools/otsdaq_flatten_system_aliases.cc:721-744 | there is no row that does not come from an original row |
| Aliases.TargetIsTheEntry | tools/otsdaq_flatten_system_aliases.cc:724-739 | a row has a single target, whatever the order of the search, even if new numbers equal other old ones |
| Aliases.RowOf | tools/otsdaq_flatten_system_aliases.cc:721-779 | a row that names an entry survives exactly if the entry was renamed, and then carries the new number, in its place |
| Numbers.KeyTextInjective | otsdaq/TableCore/TableGroupKey.cc:108-113 | different keys have different texts |
| Numbers.VersionTextInjective | otsdaq/TableCore/TableVersion.cc:33-38 | different versions have different texts |
| Aliases.AliasAfterRun | tools/otsdaq_flatten_system_aliases.cc:342-744 | after every run, a row that names a group survives exactly if that group was migrated, and then names its new key; the new group has its meaning if and only if each of its members was right when its turn came |
| Aliases.VersionAliasAfterRun | tools/otsdaq_flatten_system_aliases.cc:342-779 | after every run, a row that names a table version survives exactly if it was renamed, and then names its new version, which has its content if and only if the load that renamed it held the right view |
| Directories.RenameKeepsHome | tools/otsdaq_flatten_system_aliases.cc:292-299 | rename() of POSIX.1-2017, with refusals: the original database stays whole, at one path, and moves only with its directory |
| Directories.OneGroupSafe | tools/otsdaq_flatten_system_aliases.cc:351-448 | one group: the load reads the original, saves go elsewhere, and without an exception the original is aside again |
| Directories.EveryRunSafe | tools/otsdaq_flatten_system_aliases.cc:276-985 | with the right paths, in every run: one home, loads from the original, no save into it; a persistent run without an exception leaves it aside with a line in its read-me file; the marker files reach it if and only if the version is not persistent and the first rename did not work |
| Directories.EverythingSaved | tools/otsdaq_flatten_system_aliases.cc:342-985 | a persistent run without an exception loads every group once and saves exactly what the groups that load, and the backbone, have to save, all into the database swapped in or, without one, into a new one, where the marker files go too |
| Directories.GoesThroughExactly | tools/otsdaq_flatten_system_aliases.cc:276-448 | with the paths free and nothing refused, a run throws if and only if it is persistent, there is no database to swap in, and some group comes when others have been loaded but nothing has been saved |
| Directories.FileSystem.Flatten | tools/otsdaq_flatten_system_aliases.cc:276-985 | from every start and for every setting, the method does what the run function says; with the right paths the original is at exactly one path, every load reads it, nothing is saved into it, a persistent run without an exception leaves it aside, and the marker files reach it exactly as in `EveryRunSafe` |
| Directories.ProtocolExactly | tools/otsdaq_flatten_system_aliases.cc:276-985 | every run that is persistent or whose first rename works keeps the original free of saves and marker files, at one path and the source of every load, if and only if the path to move aside to is free or the directory to swap in is not empty; every other run writes marker files into it |
| Directories.LoadsFromElsewhere | tools/otsdaq_flatten_system_aliases.cc:292-379 | with the wrong paths, refusing the first rename alone makes the tool load its first group from another database |
| VersionAllocation.FirstTryFits | otsdaq/ConfigurationInterface/ConfigurationInterface.cc:97-113 | the first version tried is the one after the largest ordinary version, or zero: it leaves no gap below it, is never beyond the scratch version, and no ordinary version is stored from it on |
| VersionAllocation.NeverWithoutVersion | otsdaq/ConfigurationInterface/ConfigurationInterface.cc:97-142 | with tracking on and no version requested, a call is never refused for want of a version |
| VersionAllocation.AloneSaves | otsdaq/ConfigurationInterface/ConfigurationInterface.cc:79-183 | a call that nobody disturbs saves its content under the first version it tries, unless that is a stored scratch version |
| VersionAllocation.AllocationSafety | otsdaq/ConfigurationInterface/ConfigurationInterface.cc:79-183 | for every history of any number of writers: stored content never changes, returned versions are distinct and hold their writer's content, ordinary versions stay gap-free |
| VersionAllocation.GivingUpIsDeserved | otsdaq/ConfigurationInterface/ConfigurationInterface.cc:144-179 | at most four tries, and a call gives up only when the four consecutive versions it tried are taken by others, each landed since its snapshot, except that the last may be a scratch version that was there before |
| VersionAllocation.FourLandedExactly | otsdaq/ConfigurationInterface/ConfigurationInterface.cc:144-179 | for a call that gave up, all four versions it tried landed since its snapshot if and only if the last of them is not a scratch version that was there before |
| VersionAllocation.ThreeAreEnough | otsdaq/ConfigurationInterface/ConfigurationInterface.cc:144-179 | next to a stored scratch version a call does give up after three saves by others |
| VersionAllocation.AttemptedEnd | otsdaq/ConfigurationInterface/ConfigurationInterface.cc:143-182 | for every interference by others the retry loop ends with its content at a new version, the k-th successor after k collisions, or with four taken versions; nothing else of the store changes by it |
| VersionAllocation.VersionStore.Choose | otsdaq/ConfigurationInterface/ConfigurationInterface.cc:83-142 | which calls are refused before the first try and why, the version tried first, and that only an existing scratch version is overwritten, with tracking off |
| VersionAllocation.VersionStore.TrySave | otsdaq/ConfigurationInterface/ConfigurationInterface.cc:143-182 | the retry loop with its counter and the overwrite mode computes that outcome |
| VersionAllocation.VersionStore.SaveNewVersion | otsdaq/ConfigurationInterface/ConfigurationInterface.cc:79-183 | which of the five endings a call has, the version it returns, and that only the scratch version is ever overwritten, and only with tracking off |
| Runners.HistoryKeepsInv | otsdaq/ARTDAQSupervisor/ARTDAQSupervisor.cc:2139-2398 | every interleaving of supervisor calls and any number of runners keeps the invariant |
| Runners.RunnerSafety | otsdaq/ARTDAQSupervisor/ARTDAQSupervisor.cc:281-330 | at most one runner is asked to run, an untracked runner is told to stop and exited or recorded as abandoned, a stop that returned true took a runner that is gone, and cleaning up or finalizing the interpreter happens only with every runner gone |
| Runners.RestartEnds | otsdaq/ARTDAQSupervisor/ARTDAQSupervisor.cc:2380-2398 | a start, whatever its stop returned and whatever the runners do meanwhile, ends with one more runner that is tracked, asked to run and in its loop |
| Runners.StopCallEnds | otsdaq/ARTDAQSupervisor/ARTDAQSupervisor.cc:2341-2377 | a stop ends with no runner tracked and none added |
| Runners.StopEnds | otsdaq/ARTDAQSupervisor/ARTDAQSupervisor.cc:2341-2377 | with any steps of the runners in between, a stop ends after three steps of its own, true exactly if the runner it took has exited, and records abandonment otherwise |
| Runners.DestroyEnds | otsdaq/ARTDAQSupervisor/ARTDAQSupervisor.cc:309-335 | destroying cleans up Python if and only if, its own stop included, nothing was ever abandoned |
| Runners.DestructEnds | otsdaq/ARTDAQSupervisor/ARTDAQSupervisor.cc:281-296 | the destructor finalizes the interpreter if and only if, its own stop included, nothing was ever abandoned |
| Runners.StaysInLoop | otsdaq/ARTDAQSupervisor/ARTDAQSupervisor.cc:2151-2292 | a runner that is asked to run and whose passes go well stays in its loop, whatever the others do |
| Runners.LeavesInThree | otsdaq/ARTDAQSupervisor/ARTDAQSupervisor.cc:2151-2296 | a runner that is told to stop is gone after three steps of its own |
| Runners.FailureEnds | otsdaq/ARTDAQSupervisor/ARTDAQSupervisor.cc:2180-2325 | a pass that fails ends the runner, with its control block cleared unless the state query failed |
| Runners.GoneForGood | otsdaq/ARTDAQSupervisor/ARTDAQSupervisor.cc:2380-2398 | an exited runner never comes back, whatever follows |
| Runners.StopReturns | otsdaq/ARTDAQSupervisor/ARTDAQSupervisor.cc:2341-2377 | at the deadline a stop returns within three steps of its own, true exactly if the runner it took has exited, and records abandonment otherwise |
| Runners.AbandonedForGood | otsdaq/ARTDAQSupervisor/ARTDAQSupervisor.cc:281-329 | after an abandonment no history cleans up or finalizes the interpreter |
| Runners.PollUntilFatal | otsdaq/ARTDAQSupervisor/ARTDAQSupervisor.cc:2150-2293 | the polling loop stops at the first fatal pass and at no other: an exception, a changed state, or the fifth failed answer in a row |
| UdpReceiver.LossesTolerated | artdaq-ots/Generators/UDPReceiver_generator.cc:167-178 | the datagram after a number of losses is accepted in every state if and only if the losses are at most 63 modulo 256 |
| UdpReceiver.InOrderAccepted | artdaq-ots/Generators/UDPReceiver_generator.cc:167-209 | an in-order stream of any length with at most 63 losses in a row is never rejected |
| UdpReceiver.SixtyFourLosses | artdaq-ots/Generators/UDPReceiver_generator.cc:169-170 | 64 losses with 192 expected are rejected |
| UdpReceiver.UnbrokenStream | artdaq-ots/Generators/UDPReceiver_generator.cc:167-224 | from any state, datagram i of an unbroken stream is accepted exactly from a number of rejections on that is at most 192 |
| UdpReceiver.RejectionsReached | artdaq-ots/Generators/UDPReceiver_generator.cc:167-224 | the bound of 192 is reached |
| UdpReceiver.Conservation | artdaq-ots/Generators/UDPReceiver_generator.cc:201-301 | in every interleaving, packets in fragments, then those being handed over, then those just received, are the datagrams the window accepts, in order, none lost or twice |
| UdpReceiver.InOrderKept | artdaq-ots/Generators/UDPReceiver_generator.cc:167-301 | in every interleaving, if the datagrams arrive in order with at most 63 losses in a row, all of them are in the fragments or in the buffers, in order |
| UdpReceiver.Numbering | artdaq-ots/Generators/UDPReceiver_generator.cc:260-301 | in every interleaving, fragments are non-empty and numbered one after the other |
| UdpReceiver.DrainEmits | artdaq-ots/Generators/UDPReceiver_generator.cc:232-301 | taking over and making a fragment empties both buffers into exactly one fragment under the current count, if there is anything, and none otherwise |
| UdpReceiver.ReadKeeps | artdaq-ots/Generators/UDPReceiver_generator.cc:182-190 | a datagram of at most 1500 bytes is kept whole, a longer one keeps its first 1500 |
| UdpReceiver.Receiver.Receive | artdaq-ots/Generators/UDPReceiver_generator.cc:167-224 | one datagram: stored up to 1500 bytes and the next number expected, or dropped |
| UdpReceiver.Receiver.TakeBuffers | artdaq-ots/Generators/UDPReceiver_generator.cc:239-246 | everything received is moved over, in order, behind what is there |
| UdpReceiver.Receiver.EmitFragment | artdaq-ots/Generators/UDPReceiver_generator.cc:260-301 | exactly one fragment and one count for a non-empty drain, none for an empty one, with the payload of the packets taken over |
| UdpReceiver.Receiver.GetNext | artdaq-ots/Generators/UDPReceiver_generator.cc:232-281 | nothing when stopping; otherwise both buffers are drained into at most one fragment that holds all of them |
| UdpFragment.FieldsAreIndependent | artdaq-ots/Overlays/UDPFragment.hh:60-70 | each header field reads back what was written and leaves the other alone, in any order |
| UdpFragment.ReaderSeesAll | artdaq-ots/Overlays/UDPFragment.hh:84-101 | the reader's byte count is that of the resized data if and only if the size fits 28 bits |
| UdpFragment.RoomForData | artdaq-ots/Overlays/UDPFragmentWriter.hh:79-107 | after resizing there is room for all bytes and a terminator, and the data assertion holds exactly from four bytes on |
| UdpFragment.Writer.Resize | artdaq-ots/Overlays/UDPFragmentWriter.hh:92-107 | the payload has the rounded size, the size field the number of words modulo 2^28, and the type field is undisturbed; the contents are not determined |
| UdpFragment.Writer.SetType | artdaq-ots/Overlays/UDPFragmentWriter.hh:47-47 | the type field reads back the low four bits and the size field is undisturbed |
| UdpFragment.Writer.CopyPacket | artdaq-ots/Generators/UDPReceiver_generator.cc:322-338 | one packet, up to its first zero if it is text, lands behind what is already there, inside the data |
| UdpFragment.Writer.CopyPackets | artdaq-ots/Generators/UDPReceiver_generator.cc:321-346 | the data starts with the payload of all packets, terminated if it is text |
| UdpFragment.Writer.ProcessData | artdaq-ots/Generators/UDPReceiver_generator.cc:284-349 | fails its assertion exactly below four bytes; otherwise size, type and data of the fragment are those of the packets |
| UdpFragment.TypeIsHighNibble | artdaq-ots/Generators/UDPReceiver.hh:90-93 | the type is the high nibble of the first byte, and the text types are those of first bytes 0x10 to 0x2F |
| UdpFragment.RawKeepsAll | artdaq-ots/Generators/UDPReceiver_generator.cc:322-338 | raw payload is the packets one after the other |
| UdpFragment.TextKeeps | artdaq-ots/Generators/UDPReceiver_generator.cc:322-346 | text read as a zero-terminated string is what was kept, and that is everything if and only if no packet has a zero byte |
| UdpFragment.ZeroSequenceNumber | artdaq-ots/Generators/UDPReceiver_generator.cc:326-331 | a text packet with sequence number 0 keeps one byte |
| UdpFragment.ReaderSeesPayload | artdaq-ots/Overlays/UDPFragment.hh:60-101 | a reader that trusts the header finds the type and the whole payload |
| BitFields.NoCarry | otsdaq/BitManipulator/BitManipulator.cc:140-148 | adding words without common bits never carries |
| BitFields.InsertBits | otsdaq/BitManipulator/BitManipulator.cc:133-152 | the field gets the low bits of the value, every other bit is unchanged |
| BitFields.InsertBitsUnmasked | otsdaq/BitManipulator/BitManipulator.cc:17-31 | the 64-bit form: bits of the value beyond the field are added to the data |
| BitFields.UnmaskedAgrees | otsdaq/BitManipulator/BitManipulator.cc:17-31 | both forms agree if and only if those bits are set in the data already |
| BitFields.ReadBits | otsdaq/BitManipulator/BitManipulator.cc:254-262 | the result is the field, shifted down, and nothing else |
| BitFields.InsertThenRead | otsdaq/BitManipulator/BitManipulator.cc:133-262 | reading back gives the value modulo the size of the field, with the rest of the word unchanged |
| BitFields.ReverseInRange | otsdaq/BitManipulator/BitManipulator.cc:243-251 | all shifts stay inside the word if and only if the field starts at bit 0 |
| BitFields.ReverseBits | otsdaq/BitManipulator/BitManipulator.cc:122-130 | bits of the range are mirrored about the number of bits, all others are zero |
| BitFields.ReverseTwice | otsdaq/BitManipulator/BitManipulator.cc:243-251 | reversing from bit 0 twice gives the low bits back |
| BitFields.WriteOctet | otsdaq/BitManipulator/BitManipulator.cc:193-233 | the two loops over one byte replace its part of the field and keep the rest |
| BitFields.InsertInString | otsdaq/BitManipulator/BitManipulator.cc:155-240 | the loop over the bytes, with its swapped bit numbers, writes the specified string and returns the last byte written |
| BitFields.AfterInsertion | otsdaq/BitManipulator/BitManipulator.cc:155-240 | every position outside the field keeps its bit; a position inside gets the bit of the value the code picks |
| BitFields.PickedExactly | otsdaq/BitManipulator/BitManipulator.cc:199-217 | for every field and position, which bit of the value it gets: with an end that is not byte-aligned only the last byte of three or more is off, by the bits that byte has; with an aligned end every byte but the last is, by eight |
| BitFields.StoredExactly | otsdaq/BitManipulator/BitManipulator.cc:199-217 | every value, and already every value that fits the field, is stored most significant bit first if and only if the field is inside one byte, or across two with an end that is not byte-aligned |
| ActiveGroups.WriteActiveGroups | tools/otsdaq_flatten_system_aliases.cc:878-902 | a name line and a key line for each of the four groups, in order |
| ActiveGroups.CutName | otsdaq/ConfigurationInterface/ConfigurationManager.cc:378-396 | the word up to its first illegal character |
| ActiveGroups.CutKey | otsdaq/ConfigurationInterface/ConfigurationManager.cc:403-417 | the word up to its first non-digit |
| ActiveGroups.ReadRound | otsdaq/ConfigurationInterface/ConfigurationManager.cc:362-439 | one round, with its resynchronisation, stale word buffer and unchecked second read |
| ActiveGroups.RestoreActiveGroups | otsdaq/ConfigurationInterface/ConfigurationManager.cc:353-439 | the groups the loop goes on to load, for every file and every buffer content |
| ActiveGroups.RoundTrip | otsdaq/ConfigurationInterface/ConfigurationManager.cc:362-439 | for any list of slots, reading what was written gives exactly the groups in order, whatever the buffer contains |
| ActiveGroups.EmptyNameWithKey | otsdaq/ConfigurationInterface/ConfigurationManager.cc:377-423 | an empty name with an ordinary key yields a group if and only if the stale buffer passes for a name |
| GroupHistory.LoadGroupHistory | otsdaq/ConfigurationInterface/ConfigurationManager.cc:5711-5766 | every record in a file, for every file |
| GroupHistory.SaveGroupNameAndKey | otsdaq/ConfigurationInterface/ConfigurationManager.cc:5531-5573 | appending drops the oldest records, rewrites the rest and adds the new one; otherwise the file is overwritten |
| GroupHistory.LoadRewritten | otsdaq/ConfigurationInterface/ConfigurationManager.cc:5548-5558 | parsing what was printed is the identity, in front of any file |
| GroupHistory.AppendKeepsLatest | otsdaq/ConfigurationInterface/ConfigurationManager.cc:5542-5573 | an append keeps the latest 199 records and adds one |
| GroupHistory.HistoryIsLast | otsdaq/ConfigurationInterface/ConfigurationManager.cc:5542-5573 | after any number of appends to an empty file, loading gives exactly the last 200 in order |
| Text.DecimalRoundTrip | otsdaq/TableCore/TableGroupKey.cc:108-113 | the decimal text of a number denotes it |
| Text.FgetsLine | otsdaq/ConfigurationInterface/ConfigurationManager.cc:362-362 | a line shorter than the buffer is read back whole |

## Left out

- Merging and overriding tables during activation (`mergeViews`), the tree check behind `getChildren` and the tables' own `init` code: their outcomes are parameters; that they change no other table's active view is assumed.
- `lastGroupLoad_`, `lastFailedGroupLoad_`, metadata read-out, `copyTableGroupFromCache`, progress bars and log texts: nothing modelled depends on them.
- The order of the texts in the collected errors of the worker threads: errors are a multiset, since the code appends them in whatever order the workers come.
- A scratch member whose table is missing: the code builds its message by dereferencing a null table; the model treats it as the exception it was about to throw.
- A member that is missing from the map when worker threads are already initialising tables: the code throws while detached threads still hold pointers to its stack; the model covers the exception and not what those threads do next; the pool is modelled for members that are all there.
- Activation.ActivationsAreIndependent: assumes that group names are not empty and that each name stands for groups of one type; `GroupsAfter` says exactly what a shared name does.
- Activation.ActiveTablesAreMembers: speaks of runs without failed, warned or merely loading requests, because the statement is false of the others (`StaleWitness`); `ActiveTablesExactly` covers every run.
- Directories.FileSystem.Flatten: the directory to swap in exists and there is at least one group, both of which the tool checks itself (lines 245-286); a write that fails for want of rights counts as made; the reload of the new backbone at the end reads the new database on purpose and is not among the loads counted.
- Aliases.AliasView.Rewrite: assumes fewer than 2^31 rows, because `deleteRow` takes an `int`.
- VersionAllocation.GivingUpIsDeserved: assumes an atomic insert-if-absent store without versions beyond the scratch version, which the `rbegin` logic of the source relies on.
- VersionAllocation.VersionStore.SaveNewVersion: saving errors other than a collision are passed through by the source and not modelled.
- Runners.RunnerSafety: the supervisor's calls are taken one at a time; the configuring and starting threads, Python, XML-RPC and SOAP are outside the model, and only "inside Python" and the result of a poll are kept of them.
- UdpReceiver.Receiver.Receive: datagrams have at least the two header bytes the receiver documents; socket errors, the fake-data mode and the raw output file are not modelled.
- UdpFragment.Writer.ProcessData: the position is a C `int`, so totals from 2^31 bytes on are outside the model; so is the fragment's metadata word.
- BitFields.ReverseBits: called only for ranges whose shifts stay inside the word; `ReverseInRange` says when that is, and the language gives no meaning to the others.
- BitFields.InsertInString: the field is not empty and inside the string; bits beyond the width of the value stand for whatever a shift by more than the width gives.
- ActiveGroups.RestoreActiveGroups: numbers too large for `%d` and `%u` and embedded zero bytes are not modelled; loading the groups found is the subject of `Activation`.
- GroupHistory.HistoryIsLast: names are lines of fewer than 499 characters, users are single words, keys are below 2^31 or invalid, since the reader uses `%d`.
- Choosing the groups to flatten from the alias tables, and the contents of the read-me, marker and saved backbone files: only where they are written is modelled.
- Flatten.FlatteningKeepsMeaning: assumes that every load lists the members the database has, and that a load without warnings holds the right view of a table version that no earlier warned load listed; of a version that one did list nothing is assumed, because a failed fill stays in the table's cache. `RenamingExactly`, `GroupExactly` and the alias lemmas assume neither.
- The import and export tools, `ConfigurationTree`, FHiCL initialisation, the database and Xerces wrappers, the web, code-editor and online-monitor components: plumbing, or repetitions of the ideas above.

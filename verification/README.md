# A model of the matchmaking service

The service pairs queued players, starts a game container for each group on a shared host,
streams the game to spectators, records the result once, updates ratings, and tears the
container down after a cooldown. Several workers do all of this at the same time against
one database, one object store and one queue server. The project models the parts where
that is hard and proves what they promise. `dafny verify dfyconfig.toml` checks it.

There are two kinds of model. Where several parties interleave, a component is a transition
system: a state, a list of actions, and `Exec`, which applies the list. An action that is
not enabled changes nothing, so a statement about every list of actions is a statement about
every interleaving. Every call to the outside may fail, and a failed write may or may not have
landed (`Io`). Where one procedure works step by step, it is a method on a class with the
fields that the procedure updates, proved against a function of the old state; its outside
calls succeed or fail as a parameter says.

| files | component |
|---|---|
| `SpectatorModel`, `SpectatorProofs`, `SpectatorTheorems`, `SpectatorProgress`, `SpectatorFinal`, `SpectatorCode`, `UploaderRegistry` | the spectator stream: uploader, live-to-replay move, spectator requests, registry of uploaders |
| `MatchDb`, `MatchFlow`, `Teardown`, `Sweeps`, `WarmPool`, `Ports` | rows, transactions, port allocator, and the procedures on them run by one worker |
| `LifecycleModel`, `LifecycleRows`, `LifecycleSteps`, `LifecycleClaims`, `LifecyclePorts`, `LifecycleRatings`, `LifecycleSafety`, `LifecycleTheorems`, `LifecycleFlow`, `LifecycleTies`, `LifecycleReturns`, `LifecycleStarts`, `LifecycleLimits`, `LifecycleRuns` | the same rows and transactions under all workers at once |
| `EloMath`, `Sums`, `EloTheorems`, `EloApply`, `EloOdds`, `EloLocks`, `EloSerial`, `Ids` | pairwise Elo, its loops over the rating rows, the row locks, and the ratings that concurrent updates leave |
| `Queue` (module `PlayerQueues`), `Pairing`, `Windows`, `GroupPick`, `PairingLoops`, `PairingEnds`, `WaitTiers` | the player queue and the two ways to form groups |

## What came out false of the code

Each of these has a lemma with a concrete run or input, next to the exact condition under
which the property holds.

- A chunk lookup is two reads, and a delete can come between them: `SpectatorTheorems.LookupsAreNotAtomic`
  is a run in which a spectator is told that the stream is over without its first chunk. The spectator's bytes
  are right if and only if no lookup of its own lost that race (`SpectatorGetsPrefix`). The
  comment on `drainChunks` says that the caller moves the cursor to where the data ends; the
  caller reports the manifest's chunk count (src/api/match/spectate.go:118-122,140-146). The
  model follows the code.
- Overlapping moves can shorten a stream that was already announced as final
  (`SpectatorFinal.OverlappingMovesShrink`). A step does so exactly if it publishes for a move
  that had read a shorter manifest (`StepShortensIff`); while moves do not overlap none does
  (`FinalNeverShrinks`).
- `ReconcileLiveHosts` lists the VMs before it reads the hosts. A host created in between is
  taken for dead and its ports are freed while in use (`LifecycleRuns.YoungHostTakenForDead`).
  A live host that is judged was not yet created at the listing, and its owners are robbed
  exactly if one of them holds a port that was read (`LifecycleLimits.StaleFreeRobsIff`).
- `StartMatch` frees the ports when the persisting transaction reports an error. If the commit
  took effect all the same, two matches share ports (`LifecycleRuns.LostCommitSharesPort`);
  every owner keeps its ports exactly if the commit did not take effect or there were none to
  free (`LifecycleLimits.FailedStartHarmlessIff`).
- An instance removed as an orphan comes back when its match then ends
  (`LifecycleRuns.RemovedInstanceComesBack`); removal is final exactly if the result exists
  (`LifecycleReturns.RemovalIsFinalIff`).
- A claimed instance does not always return to the sweep. It can cool again exactly if its
  holder is about to revert it, has decided not to force, or has yet to decide before the
  deadline (`LifecycleReturns.ClaimReturnsIff`). A worker that crashes with the claim, one that
  won it and was told otherwise, and a revert that fails leave it claimed
  (`CrashStrandsTheClaim`, `FailedRevertIsCrash`).
- A match row is not always deleted. It still can be exactly if its match has no result yet,
  its instance is cooling, some worker holds the claim on it (one at its revert only while the
  instance is being torn down), or it has no instance and the worker that ended it has yet to
  delete it (`LifecycleReturns.RowIsDeletedIff`). So a row stays for good not only after those
  crashes but also when an orphan pass removes a cooling instance, which the sweep then never
  lists (`OrphanPassStrandsRow`, with the run `LifecycleRuns.RowIsStranded`), and when the
  deletion itself fails, as it may for a match without an instance.
- With three or more players per match, taking the nearest ratings is not optimal: for every
  such size there is a seed that is deferred although a group around it fits its window
  (`Windows.NearestIsNotBest`). A group that fits exists exactly if some interval as wide as the
  window holds the seed's rating and enough candidates (`FittingGroupIff`), so a deferral is
  right exactly if counting finds no such interval (`DeferralIsRightIff`). The picked spread is
  within a factor of two, and optimal in pairs (`Pairing.GroupQuality`).
- A match can be reported before its uploader is started, for it is in the database by then.
  The stop finds nothing and is not repeated, and the uploader runs on
  (`UploaderRegistry.StopBeforeStartIsLost`). A match that is started once has an uploader at the
  end exactly if its start took effect and no stop came after it (`RunsAtEndIff`).
- The pairing loops need not end. First come, first served ends exactly if some read or pop
  fails or enough attempts are not pushed back (`PairingLoops.FifoEndsIff`). Rating pairing can
  go on for ever as well (`PairingEnds.EqualPlayersNeverEnd`), but a push-back restarts the
  wait, and the narrower window can end the loop although every host stays full
  (`PushBackEndsRating`). `RateEndsIff` says when it has ended, `NearlyEqualEndsIff` and
  `OneGroupEndsIff` in terms of what the loop is given.
- Players are lost, neither queued nor told, exactly if a push-back fails, at capacity or
  after a pop that yielded too few (`PairingLoops.FifoConserves`, `RateLosesNobodyIff`). A pop
  that yields too few also restarts the wait of those it pushes back (`ShortPopRestartsWait`).

The registry of uploaders would lose track of an uploader that is started again before its
stopped predecessor has ended (`UploaderRegistry.RestartLosesTrack`). The program never does
that: a match is created once, and its uploader is started by the start that created it
(`LifecycleStarts.UploadersAreTracked`); then the registry is right (`OneUploaderPerMatch`).

## Model

| member | source | states |
|---|---|---|
| `SpectatorModel.Slice` | game-server-host-agent/main.go:269-305 | what the file holds from the offset on, up to max bytes of it: all of the rest or exactly max bytes |
| `SpectatorCode.HostAgent.HandleSpectate` | game-server-host-agent/main.go:261-306 | an unsafe id is refused, a missing file is empty and an unreadable one an error; otherwise the slice, with a negative offset as 0 and an unusable max as 256 KiB |
| `SpectatorCode.SafeIdIff` | game-server-host-agent/main.go:68 | safe are exactly the words of 1 to 128 ASCII letters, digits, hyphens and underscores, so none has a slash or a dot |
| `SpectatorCode.ObjectStore.PutSpectateChunk` | src/external/aws/aws.go:90-99 | the live chunk is written if the put landed, acknowledged or not, and nothing else changes |
| `SpectatorCode.ObjectStore.PutSpectateManifest` | src/external/aws/aws.go:104-114 | the live manifest is replaced if the put landed, and nothing else changes |
| `SpectatorCode.OneTick` | src/worker/spectator/uploader.go:104-135 | one tick of the uploader is its three steps of the transition system; only an acknowledged chunk advances sequence number and offset |
| `SpectatorCode.Run` | src/worker/spectator/uploader.go:89-137 | any number of ticks against a growing file and a failing store is a run of the transition system |
| `SpectatorCode.CopyChunks` | src/external/aws/aws.go:174-184 | the copying loop is copy steps of one move and stops exactly at the first chunk that is missing or whose copy is not acknowledged; the replay prefix holds exactly the copies that landed |
| `SpectatorCode.DeleteChunks` | src/external/aws/aws.go:203-208 | the deleting loop is delete steps of the same move; exactly the counted chunks whose delete landed are gone, whatever each reports |
| `SpectatorCode.MoveSpectateLiveToReplay` | src/external/aws/aws.go:150-214 | the whole move is one move of the transition system; which error it returns and what it leaves in the store follow exactly from which calls were acknowledged and which landed; if they all are, every counted chunk and the finalized manifest are under the replay prefix |
| `SpectatorCode.DrainChunks` | src/api/match/spectate.go:146-159 | the bytes of all chunks up to the first that cannot be found; a read that fails otherwise fails the drain |
| `SpectatorCode.GetMatchStream` | src/api/match/spectate.go:65-138 | a failed lookup is an error and a match that is not streamed is not found; else the first re-check that finds an error, a missing or finalized manifest or new chunks decides the reply, and if none does it is empty with the same cursor |
| `SpectatorCode.QuietStreamWaits` | src/api/match/spectate.go:92-138 | while the manifest counts nothing new and is not final the request waits, and then answers with nothing and the same cursor |
| `SpectatorCode.OverIsTold` | src/api/match/spectate.go:94-138 | a client that has everything is told the end at the first re-check that finds the manifest final |
| `SpectatorCode.ToldIsOver` | src/api/match/spectate.go:117-127 | nobody is told the end unless a re-check found the manifest final |
| `SpectatorCode.RequestServesNextChunks` | src/api/match/spectate.go:117-123 | a reply that carries bytes carries exactly the acknowledged chunks from the client's cursor to the cursor it is given |
| `SpectatorProofs.ExecKeeps` | src/external/aws/aws.go:140-214 | every interleaving of uploader, moves and spectator keeps the store invariant: every acknowledged chunk is under one of the prefixes with its own bytes |
| `SpectatorTheorems.SpectatorGetsPrefix` | src/api/match/spectate.go:92-159 | in every interleaving the spectator's bytes are exactly the chunks before its cursor, hence a prefix of the stream, if and only if no lookup of its own lost a race; an EOF names a finalized manifest |
| `SpectatorTheorems.LookupMissesIffDeleted` | src/external/aws/aws.go:131-138 | the second read of a lookup misses exactly when that chunk's delete landed after the first; the replay copy is there by then |
| `SpectatorTheorems.AtomicSpectatorGetsPrefix` | src/api/match/spectate.go:92-159 | with each lookup taken as one read: always a prefix, no gap, repeat or reordering, and EOF only to a spectator with every chunk of a finalized manifest |
| `SpectatorTheorems.StoreIsWriteOnceLog` | src/external/aws/aws.go:140-214 | before, during and after any moves, aborted, overlapping or with a late uploader, an acknowledged chunk number reads the same bytes for ever |
| `SpectatorTheorems.ManifestNeverDisappears` | src/external/aws/aws.go:116-130 | once a manifest can be read there always is one, all chunks it counts can be read, and a finalized one has them all under the replay prefix |
| `SpectatorTheorems.LookupsAreNotAtomic` | src/external/aws/aws.go:131-138 | a concrete run in which a spectator gets EOF without the first chunk |
| `SpectatorProgress.TickUploads` | src/worker/spectator/uploader.go:104-135 | a tick whose calls succeed uploads the next bytes of the file, up to 256 KiB, as the next chunk, and its manifest counts it |
| `SpectatorProgress.MovePublishes` | src/external/aws/aws.go:150-199 | from every state whose counted chunks are live, a new move can publish all of them with the finalized manifest |
| `SpectatorProgress.RequestFinishes` | src/api/match/spectate.go:92-159 | with a finalized manifest, one request takes a spectator to its last chunk and reports the end |
| `SpectatorProgress.StreamCanArrive` | src/worker/spectator/uploader.go:89-137 | from every reachable state with bytes to upload and no live chunk deleted, a continuation exists after which a spectator that lost no race holds exactly the whole stream and has been told its end |
| `SpectatorProgress.ManifestLookupIsTwoReads` | src/external/aws/aws.go:118-125 | the replay manifest, and only without one the live manifest |
| `SpectatorProgress.ChunkLookupIsTwoReads` | src/external/aws/aws.go:131-138 | the replay copy of a chunk, and only without one the live one |
| `SpectatorFinal.StepShortensIff` | src/external/aws/aws.go:186-199 | a step shortens the finished stream exactly if it publishes for a move that had read a shorter manifest than the published one |
| `SpectatorFinal.FinalNeverShrinks` | src/external/aws/aws.go:150-214 | in every run whose moves do not overlap the finished stream never gets shorter |
| `SpectatorFinal.OverlappingMovesShrink` | src/external/aws/aws.go:150-199 | two overlapping moves after which a stream of two acknowledged chunks is final with one |
| `UploaderRegistry.Uploaders.StartUploader` | src/worker/spectator/uploader.go:66-76 | starts and registers an uploader unless the match does not stream or has an entry |
| `UploaderRegistry.Uploaders.StopUploader` | src/worker/spectator/uploader.go:81-87 | removes the match's entry and cancels what it names |
| `UploaderRegistry.Uploaders.UploaderExits` | src/worker/spectator/uploader.go:89-90 | a cancelled uploader ends and deletes its match's entry, whoever it names |
| `UploaderRegistry.TrackedIsUnique` | src/worker/spectator/uploader.go:56-87 | with a correct registry a match has at most one uploader, and a stop reaches it |
| `UploaderRegistry.ExitTracksIff` | src/worker/spectator/uploader.go:89-90 | an ending uploader leaves the registry correct if and only if its match has no newer entry |
| `UploaderRegistry.OneUploaderPerMatch` | src/worker/matchmaking/pairPlayers.go:296-298 | in every history that starts each match at most once, every match has at most one uploader that writes, and a stop reaches the one that is live by then |
| `UploaderRegistry.RunsAtEndIff` | src/api/matchResults/reportResults.go:94-97 | in every such history a match has a live uploader at the end if and only if its start took effect and no stop of the match came after it |
| `UploaderRegistry.StopBeforeStartIsLost` | src/worker/matchmaking/pairPlayers.go:272-298 | a history in which the match is stopped before its one start, and its uploader runs on |
| `LifecycleStarts.UploadersAreTracked` | src/worker/matchmaking/pairPlayers.go:272-298 | in every run of the service each match is started at most once, so the registry is right, and a match has an uploader at the end if and only if its start took effect and no stop came after it |
| `UploaderRegistry.PatientIsClean` | src/worker/spectator/uploader.go:60-90 | the registry is right in every history in which no match is restarted under a stopped uploader |
| `UploaderRegistry.RestartLosesTrack` | src/worker/spectator/uploader.go:66-90 | what the interface alone would allow: a restart that ends with two uploaders of one match |
| `Ports.ScanPorts` | src/models/machine_host.go:164-179 | the upward scan computes the specified allocation |
| `Ports.KeepOthers` | src/models/machine_host.go:198-208 | the loop keeps exactly the ports that are not released, in order |
| `Ports.AllocatesSmallestFree` | src/models/machine_host.go:153-188 | allocation fails if and only if fewer than count ports are free; otherwise it gives the count smallest free ones, ascending |
| `Ports.SubtractionTestSuffices` | src/models/machine_host.go:144-147 | the host search's subtraction is enough for allocation to succeed, even with duplicate or out-of-range entries |
| `Ports.WithoutMeaning` | src/models/machine_host.go:190-212 | release removes exactly the given ports and adds no duplicate |
| `Ports.ReleaseUndoesAllocate` | src/models/machine_host.go:153-212 | releasing what was just allocated restores the list element for element |
| `Ports.AllocateKeepsNoDup` | src/models/machine_host.go:169-181 | a duplicate-free list stays so |
| `MatchDb.Database.AllocatePorts` | src/models/machine_host.go:155-188 | the transaction as a function of the old rows, or no change |
| `MatchDb.Database.FreePorts` | src/models/machine_host.go:191-212 | release by value, failing only on a missing host or a rejected transaction |
| `MatchDb.Database.SetHostStatus` | src/models/machine_host.go:89-95 | one unconditional status write |
| `MatchDb.Database.SetInstanceStatus` | src/models/server_instance.go:77-79 | one unconditional status write |
| `MatchDb.Database.Persist` | src/worker/matchmaking/pairPlayers.go:272-294 | instance and match rows appear together or not at all |
| `MatchDb.Database.ClaimCooldownInstance` | src/models/server_instance.go:164-172 | compare-and-set from cooldown; won exactly if the row was cooling |
| `MatchDb.Database.RevertTearingDownToCooldown` | src/models/server_instance.go:177-181 | back to cooldown only from tearing down |
| `MatchDb.Database.MatchEnded` | src/models/matchResult.go:80-140 | result, both statuses and the rating update all happen or none does; it succeeds if and only if the match exists and has no result, no rating statement is rejected, and the transaction goes through |
| `MatchDb.RatedMeaning` | src/models/matchResult.go:122-131 | ratings move only if the caller asked and the queue rates, by that queue's rules, and in no other queue |
| `MatchDb.Database.FinalizeMatchTeardown` | src/models/matchResult.go:151-180 | logs and artifacts are patched where given, the match row goes, the verdict stays |
| `MatchFlow.FindAvailableHost` | src/models/machine_host.go:127-151 | the first listed ready host that could be counted and has a slot and enough ports, so that the allocation will succeed; none only if none fits |
| `MatchFlow.ProvidedHostHasPorts` | src/worker/matchmaking/pairPlayers.go:176-237 | a host that was found or provisioned has the ports, unless the whole range is too small |
| `MatchFlow.FreeUndoesAllocate` | src/worker/matchmaking/pairPlayers.go:231-293 | freeing what a start has allocated restores the database of before |
| `MatchFlow.ProvideHost` | src/worker/matchmaking/pairPlayers.go:176-229 | finds a host, or registers exactly one new row, ready if that was saved, with the fleet's slots and no ports; each error is returned if and only if its call failed or the cap is reached, and then nothing has changed |
| `MatchFlow.StartOnHost` | src/worker/matchmaking/pairPlayers.go:231-304 | allocation, start and persisting on one host: the two transactions on success, everything restored on an error, and the saved but unserved rows after a lost commit; each error is returned if and only if its call failed; the uploader is started exactly on success |
| `MatchFlow.StartMatch` | src/worker/matchmaking/pairPlayers.go:163-305 | all or nothing: success adds one linked instance and match owning exactly the new ports, on a listed host with a slot or on a new row that is fixed exactly; an error leaves instances, matches and, if the release worked, every port list as before, save that a commit reported as failed leaves both rows without ports; each player gets exactly one match notice, one error notice or, at capacity and if the push works, a place back; the uploader is started exactly on success |
| `MatchFlow.NextSearchFits` | src/worker/matchmaking/pairPlayers.go:210-223 | a host that a start has registered and marked ready fits the next start, as long as it has a slot and the ports left |
| `MatchFlow.StartFillsNoHost` | src/models/machine_host.go:136-143 | a start never puts more instances on a host than it has slots |
| `MatchFlow.NewHostCounts` | src/models/machine_host.go:97-101 | a host counts against the cap from its registration on, ready or not |
| `MatchFlow.DeletedHostCountsNot` | src/models/machine_host.go:97-101 | marking a host deleted takes exactly it out of the count |
| `MatchFlow.GiveUp` | src/worker/matchmaking/pairPlayers.go:260-265 | every failure after the allocation releases by value and tells every player |
| `MatchFlow.Mail.Publish` | src/worker/matchmaking/pairPlayers.go:140-144 | every player is sent the notice, in order |
| `MatchFlow.ToAllOnce` | src/worker/matchmaking/pairPlayers.go:300-302 | the notices sent are one per player |
| `Teardown.TeardownCooledMatch` | src/api/matchResults/reportResults.go:166-220 | the database afterwards for every way the calls can fail |
| `Teardown.FailedStopUndoesClaim` | src/api/matchResults/reportResults.go:192-201 | a failed stop before the deadline restores the database of before the claim |
| `Teardown.TeardownFinishesIff` | src/api/matchResults/reportResults.go:189-217 | instance removed, match gone, exactly its ports freed, result kept with its logs, and nothing else touched, if and only if the container stopped or the deadline has passed |
| `Teardown.EndMatch` | src/api/matchResults/reportResults.go:87-151 | exactly if the match is underway the uploader is stopped and a spectated stream is moved, with all that `MoveSpectateLiveToReplay` leaves; then nothing, or phase A and the phase B that belongs to it, as the calls decide; success exactly if the result was recorded and a match without instance also closed |
| `Teardown.TeardownInline` | src/api/matchResults/reportResults.go:136-148 | a teardown only after a won claim; a lost claim leaves everything as it is |
| `Teardown.EndedMeans` | src/api/matchResults/reportResults.go:69-151 | the verdict and the ratings it implies are recorded and no other match is touched; without an instance or without cooldown only the result remains; with a cooldown match and instance cool and the row stays; a failed stop or a claim not made without cooldown leaves what a cooldown would have left |
| `Sweeps.SweepOne` | src/worker/matchmaking/garbageCollectMatches.go:160-173 | claim, force decision by the clock, teardown, as `SweepIsItsSteps` ties them to the transition system |
| `Sweeps.SweepCooledMatches` | src/worker/matchmaking/garbageCollectMatches.go:151-176 | every match whose cooldown is over, and whose entry could be read and claimed, is torn down as far as its transactions went through if its container stopped or its result is at least as old as the force deadline, and else is as before; every other match is untouched |
| `Sweeps.ReadyMeaning` | src/models/server_instance.go:110-154 | listed are exactly the matches whose instance cools and whose result is at least a cooldown old |
| `Sweeps.TeardownKeepsOthers` | src/api/matchResults/reportResults.go:166-220 | a teardown touches no other instance, match or result however it turns out |
| `Sweeps.ReconcileLiveHosts` | src/worker/matchmaking/garbageCollectMatches.go:39-72 | exactly the ready hosts that the provider did not list lose their ports and are marked deleted, each as far as its two transactions go through; hosts that are being provisioned or are listed are spared |
| `Sweeps.ReconcileOrphanedInstances` | src/worker/matchmaking/garbageCollectMatches.go:83-109 | exactly the instances on deleted hosts are removed and their ports freed there, as far as the transactions go through; hosts that are not deleted are untouched |
| `Sweeps.ReconcileTick` | src/worker/worker.go:65-73 | in this order, one tick leaves no ready host missing at the provider and nothing on a deleted host, save where a transaction failed |
| `WarmPool.CountAvailableSlots` | src/models/machine_host.go:105-122 | the sum of free slots of the ready hosts, or an error |
| `WarmPool.SlotsIgnoresOrder` | src/models/machine_host.go:105-122 | the count does not depend on the order of the rows |
| `WarmPool.StartTakesOneSlot` | src/models/machine_host.go:105-122 | a start takes exactly one slot of its host, if it had one, and none of any other |
| `WarmPool.TryDeleteIdleHost` | src/api/matchResults/reportResults.go:226-266 | a deleted host was idle, and the slots that remain reach the target or are as many as before |
| `WarmPool.SlotsAfterDeletion` | src/api/matchResults/reportResults.go:238-250 | deleting an idle host takes exactly its own slots out of the count |
| `WarmPool.MaintainWarmPool` | src/worker/matchmaking/warmPool.go:14-74 | terminates, and fails only if a call does; ends at the target or at the host cap, adds no host beyond the one that meets the target, and leaves existing hosts untouched |
| `LifecycleRows.KnowsCarries` | src/api/matchResults/reportResults.go:87-147 | what a worker has read about rows that only evolve stays true under the steps of the others |
| `LifecycleSteps.ExecKeepsSteady` | src/models/matchResult.go:80-180 | every run keeps rows linked and the lifecycle in order, and no step undoes a result, a deletion or a host's end |
| `LifecycleClaims.CommittedKeepsClaims` | src/models/matchResult.go:110-120 | the unconditional cooldown write of phase A never hits an instance that is claimed or released |
| `LifecycleClaims.ExecKeepsClaims` | src/models/server_instance.go:156-181 | every run keeps claims exclusive and releases single |
| `LifecyclePorts.GivesBackKeeps` | src/models/machine_host.go:190-212 | an owner's release by value takes no other owner's port |
| `LifecyclePorts.PassesOnKeeps` | src/worker/matchmaking/pairPlayers.go:272-287 | persisting passes the ports from the start in flight to the instance |
| `LifecyclePorts.SpoilsKeeps` | src/worker/matchmaking/garbageCollectMatches.go:62-66 | a release by somebody who does not own the ports hurts only the host it concerns, and only if an owner held one of them |
| `LifecyclePorts.ExecKeepsOwnership` | src/models/machine_host.go:155-212 | every run keeps port ownership |
| `LifecycleSafety.ExecKeepsSafe` | src/models/matchResult.go:80-180 | every run keeps the whole invariant: rows, claims, port ownership, books and cooldown |
| `LifecycleTheorems.PortOwnership` | src/worker/matchmaking/pairPlayers.go:231-294 | in every interleaving, on every live host on which no owner has been robbed, starts in flight and unreleased instances own disjoint ports, all allocated and in range; no list has duplicates |
| `LifecycleTheorems.StaleHostsAreDead` | src/worker/matchmaking/garbageCollectMatches.go:39-60 | a host judged stale is dead unless its VM was created after the listing |
| `LifecycleLimits.StaleFreeRobsIff` | src/worker/matchmaking/garbageCollectMatches.go:39-66 | a live host that is judged was unknown at the listing; freeing its ports leaves every owner served, and the host good, exactly if no owner holds a port that was read |
| `LifecycleLimits.FailedStartHarmlessIff` | src/worker/matchmaking/pairPlayers.go:288-293 | after a start reported as failed has freed its ports, every owner still has its own exactly if the commit did not take effect or there was nothing to free |
| `LifecycleTheorems.ExactlyOneResult` | src/models/matchResult.go:80-140 | in every interleaving a match has at most one committed result, which holds its verdict, and the ratings are exactly the committed results replayed: an update is in if and only if its result is |
| `LifecycleTheorems.ResultsAreFinal` | src/api/matchResults/reportResults.go:51-56 | winners, reason and time of a result never change, whatever follows |
| `LifecycleTheorems.RatingsDriftBounded` | src/models/elo.go:60-87 | over any run the points in circulation in a queue leave the default by at most half a point per seat in matches of three or more; two-player matches conserve exactly |
| `LifecycleRatings.ReplayNearlyConserves` | src/models/elo.go:60-87 | the same for any list of results |
| `LifecycleTheorems.LifecycleInvariant` | src/models/matchResult.go:101-180 | an instance cooling or torn down serves exactly one match, whose result exists; so does the result of a match in cooldown or whose row is gone |
| `LifecycleTheorems.MatchesMoveForward` | src/models/match.go:240-246 | cooldown never turns back, a deleted row never returns, and instance and players never change |
| `LifecycleReturns.RemovalIsFinalIff` | src/models/matchResult.go:114-120 | a removed instance stays removed in every continuation if and only if its match has its result |
| `LifecycleReturns.ClaimReturnsIff` | src/api/matchResults/reportResults.go:192-201 | an instance being torn down can cool again if and only if its holder is about to revert it, has decided not to force, or has yet to decide before the deadline |
| `LifecycleReturns.RowIsDeletedIff` | src/api/matchResults/reportResults.go:87-217 | every match row can still be deleted if and only if its match has no result, its instance is cooling, a worker holds the claim (at a revert only while the instance is being torn down), or, without an instance, its ending worker has yet to delete it |
| `LifecycleReturns.OrphanPassStrandsRow` | src/worker/matchmaking/garbageCollectMatches.go:83-109 | removing a cooling instance of a deleted host as an orphan leaves its match row for good |
| `LifecycleReturns.FailedRevertIsCrash` | src/api/matchResults/reportResults.go:195-201 | a revert that fails has the same effect as a crash before it |
| `LifecycleTheorems.ClaimsAreExclusive` | src/worker/matchmaking/garbageCollectMatches.go:160-173 | at most one worker between claim and revert or finish, what it holds cannot be claimed, and no instance's ports are released twice by a teardown |
| `LifecycleTheorems.CrashStrandsTheClaim` | src/models/server_instance.go:18-25 | after its holder crashed, a claim is never taken up again, and the match row it had not deleted stays |
| `LifecycleTheorems.RowOutlivesCooldown` | src/models/server_instance.go:110-154 | a match with an instance keeps its row for the whole cooldown after its result |
| `LifecycleFlow.TeardownIsItsSteps` | src/worker/matchmaking/garbageCollectMatches.go:160-173 | a claim holder left alone has exactly the effect of the teardown procedure; past the deadline it finishes although the stop fails |
| `LifecycleFlow.SweepIsItsSteps` | src/worker/matchmaking/garbageCollectMatches.go:155-173 | an entry of the sweep left alone has exactly the effect of listing, claiming and tearing down in the transition system, forced once the result is as old as the deadline |
| `LifecycleFlow.ListedIffReady` | src/models/server_instance.go:110-154 | the sweep lists exactly the matches that a worker of the transition system could list |
| `LifecycleFlow.EndIsItsSteps` | src/api/matchResults/reportResults.go:87-151 | ending a match left alone has exactly the effect of the end procedure, with what follows in the same call |
| `LifecycleFlow.StartIsItsSteps` | src/worker/matchmaking/pairPlayers.go:231-304 | a start left alone adds exactly what the start procedure promises |
| `LifecycleTies.ProvisioningIsItsSteps` | src/worker/matchmaking/pairPlayers.go:210-219 | a worker that provisions registers exactly the row that the procedure registers |
| `LifecycleTies.PicksReady` | src/models/machine_host.go:127-131 | only a ready host is picked for a start |
| `LifecycleTies.TimesOutIff` | src/worker/matchmaking/garbageCollectMatches.go:121-128 | a match is timed out exactly if it has been underway for more than six hours, without winner or ratings |
| `LifecycleTies.TakesUpIff` | src/api/matchResults/reportResults.go:87-92 | a report is taken up exactly for a match that is underway |
| `LifecycleTies.RefusedEnds` | src/models/matchResult.go:80-140 | a result that exists already, or whose transaction is rejected, changes nothing and ends the worker |
| `LifecycleTies.LostAllocationLeaks` | src/worker/matchmaking/pairPlayers.go:231-239 | an allocation that took effect but was reported as failed leaves its ports allocated without an owner |
| `LifecycleTies.StaleIsItsSteps` | src/worker/matchmaking/garbageCollectMatches.go:39-72 | judging a host left alone has the effect of the reconciliation: it changes exactly ready hosts that are not listed |
| `LifecycleTies.DeadHostIsMarked` | src/worker/matchmaking/garbageCollectMatches.go:39-72 | a ready host whose VM has died is found by the next survey and marked deleted |
| `LifecycleTies.OrphanIsItsSteps` | src/worker/matchmaking/garbageCollectMatches.go:83-109 | the same for an instance: it changes exactly those on deleted hosts |
| `LifecycleTies.ReapIsItsSteps` | src/api/matchResults/reportResults.go:226-266 | a host is marked deleted and its VM goes only if no instance takes a slot there and the warm pool can spare it |
| `LifecycleRuns.YoungHostTakenForDead` | src/worker/matchmaking/garbageCollectMatches.go:39-66 | a run in which two starts hold the same port of a live, ready host |
| `LifecycleRuns.LostCommitSharesPort` | src/worker/matchmaking/pairPlayers.go:288-293 | a run in which an instance and a start share a port after a commit was reported as failed |
| `LifecycleRuns.RowIsStranded` | src/worker/matchmaking/garbageCollectMatches.go:83-109 | a run in which an orphan pass removes a cooling instance and its match row is never deleted |
| `LifecycleRuns.RemovedInstanceComesBack` | src/models/matchResult.go:114-120 | a run in which a removed instance cools again because its match ends after all |
| `EloMath.ExpectedComplement` | src/models/elo.go:79 | the expectations of two players against each other add up to one |
| `EloMath.ExpectedMonotone` | src/models/elo.go:79 | a lower rating against a higher one expects no more |
| `EloOdds.PowLaw` | src/models/elo.go:79 | b^0 is one and b^(n+1) is b times b^n, for every integer n |
| `EloOdds.ExpectedOdds` | src/models/elo.go:79 | one player's expectation is b^(difference) times the other's: with `ExpectedComplement` this determines it |
| `EloOdds.ExpectedStrict` | src/models/elo.go:79 | a larger lead strictly expects more |
| `EloTheorems.DeltasSumToZero` | src/models/elo.go:60-82 | the real deltas of a match sum to zero for every size, factor and winner set |
| `EloTheorems.WinnersGainWhatLosersLose` | src/models/elo.go:60-82 | the winners' deltas sum to the effective factor times the sum of (1 - E) over winner-loser pairs, the losers' to its negation; nonnegative for K >= 0 |
| `EloTheorems.RoundedDeltasNearlyConserve` | src/models/elo.go:84-87 | after rounding half away from zero the total moves by at most N/2, and not at all for two players |
| `EloTheorems.UnderdogEarnsNoLess` | src/models/elo.go:60-87 | an outcome no worse from a rating no higher never earns a smaller rounded delta |
| `EloOdds.UnderdogEarnsMore` | src/models/elo.go:60-82 | with K > 0, an outcome no worse from a strictly lower rating strictly earns more before rounding, in a match of any size |
| `EloOdds.LowerEarnsMore` | src/models/elo.go:60-82 | the same result against the same opponent strictly earns more from a lower rating |
| `EloOdds.DeltaIsShare` | src/models/elo.go:60-82 | every delta is 2K/N times the sum of scored minus expected over the others |
| `EloOdds.PairDelta` | src/models/elo.go:60-82 | between two players the delta is K times scored minus expected |
| `EloOdds.RoundMeaning` | src/models/elo.go:85 | to the nearest integer, with halves away from zero |
| `EloTheorems.DeltaBounded` | src/models/elo.go:60-82 | for K > 0 every real delta is strictly below 2K(N-1)/N in magnitude |
| `EloApply.AccumulateRow` | src/models/elo.go:63-82 | the inner loop computes one player's sum over all others |
| `EloApply.AccumulateDeltas` | src/models/elo.go:62-82 | both loops compute every player's delta |
| `EloApply.CreateRows` | src/models/elo.go:43-48 | the first pass inserts a default row where there is none and changes no other |
| `EloApply.LockRows` | src/models/elo.go:50-58 | the second pass reads every row, in order |
| `EloApply.SaveRows` | src/models/elo.go:84-89 | every row ends at old rating plus rounded delta |
| `EloApply.ApplyClassicElo` | src/models/elo.go:26-91 | the whole update as a function of the rows, the players and the winners; it succeeds if and only if fewer than two players are registered or none of their statements is rejected |
| `EloApply.UpdateByPlayer` | src/models/elo.go:26-91 | every registered player ends at old rating, or the default, plus its rounded delta; guests and others get nothing |
| `EloOdds.TwoPlayerUpdate` | src/models/elo.go:26-91 | of two registered players each ends at its old rating, or the default, plus K times scored minus expected, rounded |
| `EloOdds.UpsetMovesTwentyNine` | src/models/elo.go:26-91 | with ten to one per 400 points and K = 32, a player at 1200 who beats one at 1600 ends at 1229, the other at 1571 |
| `EloApply.UpdateIgnoresOrder` | src/models/elo.go:27-41 | the order of players and winners does not matter |
| `EloApply.UpdateNearlyConserves` | src/models/elo.go:26-91 | one update moves the points in circulation by at most half a point per registered player, and not at all with two |
| `Ids.SortedUnique` | src/models/elo.go:36 | a sorted list is determined by its elements |
| `Ids.GuestsAreMarked` | src/util/guest.go:3-5 | guests are exactly the identifiers of "g_" and at least one more character |
| `EloLocks.WaitingClimbs` | src/models/elo.go:43-58 | a transaction that is waited for and itself waits is further along than its waiter: in a later pass, or at a larger player |
| `EloLocks.NoCircularWait` | src/models/elo.go:43-58 | in every reachable state every set of rating transactions has a member that waits for none in the set, with commits, aborts and rows created elsewhere |
| `EloLocks.NeverDeadlocked` | src/models/elo.go:36-58 | whenever a rating transaction is unfinished, some unfinished one's next statement executes at once |
| `EloSerial.RatingsAreSerial` | src/models/elo.go:43-89 | however inserts, locking reads, saves, commits, aborts and rows created elsewhere interleave, the committed ratings are those of the committed updates applied one after the other in commit order |
| `EloSerial.CommitIsUpdate` | src/models/elo.go:50-89 | what a transaction publishes is the update function of the rows that are committed when it commits |
| `EloSerial.LockedCommits` | src/models/elo.go:84-89 | a transaction that holds all its locks can always be carried to its commit |
| `EloSerial.FreshDoesNotMatter` | src/models/rating.go:101-125 | rows created at the default, at any time, change no rating that the updates lead to |
| `PlayerQueues.PlayerQueue.AddPlayerToQueueWithTTL` | src/external/redis/redis.go:91-116 | joins at the end with its time, or is refused if queued |
| `PlayerQueues.PlayerQueue.RemovePlayerFromQueue` | src/external/redis/redis.go:118-135 | leaves list and hash, or an error if not queued |
| `PlayerQueues.PlayerQueue.PopPlayersFromQueue` | src/external/redis/redis.go:155-166 | the front of the list, and their times go; an error on an empty list |
| `PlayerQueues.PlayerQueue.RemovePlayersFromQueue` | src/external/redis/redis.go:172-186 | the listed players leave list and hash |
| `PlayerQueues.PlayerQueue.PushPlayersToQueue` | src/external/redis/redis.go:207-220 | joins at the end; a time that is there stays; pushing nobody is an error |
| `PlayerQueues.AddRefines` | src/external/redis/redis.go:91-116 | refused if and only if queued; otherwise one new last entry |
| `PlayerQueues.RemoveRefines` | src/external/redis/redis.go:118-135 | refused if and only if not queued; otherwise the other entries in their order |
| `PlayerQueues.PopRefines` | src/external/redis/redis.go:155-166 | fails if and only if nobody waits; otherwise the first entries go and their players are returned |
| `PlayerQueues.RemoveAllRefines` | src/external/redis/redis.go:172-186 | exactly the entries of the given players go |
| `PlayerQueues.PushRefines` | src/external/redis/redis.go:207-220 | list and hash stay in agreement if and only if the players are distinct and none is queued |
| `PlayerQueues.RunRefines` | src/external/redis/redis.go:91-220 | every history in which nobody queued is pushed back behaves like one ordered list of players and join times |
| `Pairing.GroupQuality` | src/worker/matchmaking/pairPlayers.go:451-478 | the picked group's spread is at most twice that of any group of its size around the same seed, and the smallest for pairs |
| `Pairing.PairDeferredIff` | src/worker/matchmaking/pairPlayers.go:456-478 | for pairs, deferral happens if and only if no opponent lies in the seed's window |
| `Windows.FittingGroupIff` | src/worker/matchmaking/pairPlayers.go:465-478 | around a seed there is a group of a given size within a window if and only if some interval of that width holds the seed's rating and enough candidates |
| `Windows.DeferralIsRightIff` | src/worker/matchmaking/pairPlayers.go:456-478 | for every group size, a deferral is right, no other group would have fitted, if and only if no such interval exists |
| `Windows.NearestIsNotBest` | src/worker/matchmaking/pairPlayers.go:458-478 | for every size from three on, candidates whose seed is deferred, however ties are resolved, although a group around it fits the window |
| `GroupPick.PickGroup` | src/worker/matchmaking/pairPlayers.go:451-478 | size players: one who has waited longest and the others nearest to it; fits exactly if the spread is within the seed's window |
| `GroupPick.Candidates` | src/worker/matchmaking/pairPlayers.go:434-449 | ratings default and missing join times count as the loosest tier |
| `GroupPick.Extremes` | src/worker/matchmaking/pairPlayers.go:465-473 | the lowest and highest rating of the group |
| `PairingLoops.PairFront` | src/worker/matchmaking/pairPlayers.go:365-381 | one pass of FIFO pairing, with a read, a pop or a push-back that fails, and players who leave before the pop; a pop that yields too few pushes them back and stops |
| `PairingLoops.PairFIFO` | src/worker/matchmaking/pairPlayers.go:363-384 | the loop is the specified one for every supply of rounds; true exactly if a match started; says whether it is over |
| `PairingLoops.FifoConserves` | src/worker/matchmaking/pairPlayers.go:363-384 | the initial queue is, as a bag, those still queued, matched, told of an error, gone on their own or lost; nobody is lost if and only if no push-back fails |
| `PairingLoops.FifoInOrder` | src/worker/matchmaking/pairPlayers.go:363-384 | while there is room, whoever queued earlier is seated earlier and before all who still queue, whoever leaves in between |
| `PairingLoops.FifoBlocks` | src/worker/matchmaking/pairPlayers.go:363-384 | with room and nobody leaving the groups are consecutive blocks of the queue |
| `PairingLoops.ShortPopRestartsWait` | src/worker/matchmaking/pairPlayers.go:371-375 | a pop that yields too few stops the loop and leaves the same players queued in the same order with their wait restarted, or loses them if the push fails |
| `PairingLoops.FifoEndsIff` | src/worker/matchmaking/pairPlayers.go:365-380 | the loop has ended if and only if a read or pop failed or as many attempts were not pushed back as there are full groups among those who have not left |
| `PairingLoops.FifoAgrees` | src/external/redis/redis.go:155-220 | every pass of FIFO pairing keeps list and hash in agreement |
| `PairingLoops.FullOnlyRotates` | src/worker/matchmaking/pairPlayers.go:190-193 | an attempt at capacity rotates the queue and keeps list and hash in agreement |
| `PairingLoops.TurnKeepsQueue` | src/worker/matchmaking/pairPlayers.go:484-492 | a group taken by rating leaves the queue, or joins again with its wait restarted; list and hash agree and nobody else is affected |
| `PairingLoops.RateRunGood` | src/worker/matchmaking/pairPlayers.go:405-495 | however the sorts resolve ties: every group taken was picked from the queue and ratings of its turn, fits its seed's window and has distinct players; everybody is accounted for; a deferral names a picked group outside its window |
| `PairingLoops.RateLosesNobodyIff` | src/worker/matchmaking/pairPlayers.go:188-194 | rating pairing loses somebody if and only if a push-back fails |
| `PairingLoops.PairNearest` | src/worker/matchmaking/pairPlayers.go:407-494 | one pass of rating pairing, with a read, a removal or a push-back that fails |
| `PairingLoops.PairByRating` | src/worker/matchmaking/pairPlayers.go:405-495 | the loop is the specified one for every supply of rounds, with all that `RateRunGood` says of it; says whether it is over; what each pass takes or defers is fixed by `WaitTiers.DeferredIff` |
| `WaitTiers.DeferredIff` | src/worker/matchmaking/pairPlayers.go:389-479 | a pass defers the picked group exactly if its spread exceeds 100 points while the longest wait is below 30 seconds, 300 from then on, and 2^20 from 60 seconds on |
| `WaitTiers.PatientAreTaken` | src/worker/matchmaking/pairPlayers.go:389-492 | with enough players, one of whom has waited a minute, and ratings within 2^20 of each other, a pass takes a group |
| `WaitTiers.DeferralMeansYoung` | src/worker/matchmaking/pairPlayers.go:405-495 | whenever the loop ends in a deferral nobody queued has waited a minute, or ratings are further apart than 2^20 |
| `PairingEnds.RateEndsIff` | src/worker/matchmaking/pairPlayers.go:407-494 | the rating loop has ended if and only if too few are left or some pass met a failing read or removal or a group outside its window |
| `PairingEnds.NearlyEqualEndsIff` | src/worker/matchmaking/pairPlayers.go:407-494 | for players within the tightest window of each other it ends exactly when FIFO pairing does while nobody leaves |
| `PairingEnds.OneGroupEndsIff` | src/worker/matchmaking/pairPlayers.go:389-494 | with one group queued and every host full, it has ended if and only if in some round the group's spread was outside the window for the time since the last push-back |
| `PairingEnds.EqualPlayersNeverEnd` | src/worker/matchmaking/pairPlayers.go:407-494 | two players of one rating are paired and turned away for as long as every host is full |
| `PairingEnds.PushBackEndsRating` | src/worker/matchmaking/pairPlayers.go:407-494 | two players 200 points apart after 40 seconds: turned away once, then deferred, although every host stayed full |

## Left out

- LifecycleTheorems.PortOwnership: says nothing about a host from the step on in which an owner there was robbed of a port, because ownership is false then (two lemmas show it).
- SpectatorTheorems.SpectatorGetsPrefix: the prefix holds only while no lookup lost its race, because the code's two reads are not atomic.
- SpectatorFinal.FinalNeverShrinks: asks for moves that do not overlap, because overlapping ones can shorten the stream.
- PairingLoops.PairFIFO: the loop may go on for ever, so it is followed for a given list of rounds; of the others' requests only leaving between the reading of the length and the pop is modelled.
- PairingLoops.PairByRating: the same; what it says of single groups needs list and hash to agree, which the queue operations keep. Ties in the sorts are resolved in one way by the method and in any way by the lemmas.
- PairingLoops.PairNearest: nobody leaves or joins while a pass of rating pairing runs.
- GroupPick.PickGroup: asks for a lobby size of at least one, with which the code's slicing is defined.
- MatchFlow.StartMatch: assumes fresh identifiers and no other worker in between; an error return whose release failed leaves the ports allocated, and a commit reported as failed leaves its rows.
- Sweeps.SweepCooledMatches: one worker, and no two matches on one instance, which `LifecycleTheorems.LifecycleInvariant` gives for every run; the listing may be in any order.
- WarmPool.MaintainWarmPool: host and slot caps hold for one worker only, for checking and creating is not atomic.
- WarmPool.TryDeleteIdleHost: the same; only persisted instances count, so a start in flight does not protect its host.
- Which host the search prefers and what the warm pool keeps are free choices in the transition system; the procedures model them.
- A commit that lands and is reported as failed is modelled for the allocation and for persisting a start; where the worker stops on an error (a claim or a result, say) it is the commit followed by a crash of that worker; where it goes on all the same (setting a host ready, release, mark, finalize and the reconciliation writes) it is the step in which the write succeeds.
- A put that is reported as failed and lands only later than the next step.
- The expiry of objects in the store, and chunks uploaded after the manifest was finalized, which no spectator is served.
- The agent's own view of containers: a stop or a start succeeds or fails, a VM is alive or gone, and ports stand for database ownership, not for sockets.
- Completeness of one pass of `GarbageCollectMatches`, which pages by offset over a set that shrinks; its timeouts are steps of the transition system.
- Floating point in Elo: reals with any base above one, of which the code's 10^(1/400) is one.
- EloSerial.RatingsAreSerial: takes a locking read to return the version committed last, as the database's default isolation level does.
- Row locks outside the ratings table, and ratings deleted with their queue.
- Pipelines and check-then-add races of the queue server: each queue operation is one step. Liveness keys, `AddPlayerToQueue` and queue key parsing are not modelled.
- HTTP, WebSocket, tokens, DNS, certificates, pagination, lobbies, artifacts and player data.

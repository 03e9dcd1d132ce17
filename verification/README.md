# Managed shares, SMB ownership, relays and layer transport

This project models the parts of hcsctl whose correctness depends on order, crashes or concurrency, and proves
what they promise.

**Shares in the guest agent** (`Paths`, `ShareModel`, `ShareProtocol`, `ShareInvariant`, `ShareTheorems`,
`ShareRefinement`, `ShareAcks`, `ShareManager`, `Mountinfo`). `ShareProtocol` is a transition system over the kernel's mounts, the
durable journal, the volatile manager and the place inside the running operation. A crash may happen between any
two steps, a failed save leaves the old or the new content, and other software may mount, unmount and replace
directories between any two steps. Unique mount ids are never reused, plain mount ids may be. `ShareInvariant` shows
that every step keeps the invariant; `ShareTheorems`, `ShareRefinement` and `ShareAcks` draw the consequences over all
runs. `ShareManager` is the imperative form: its classes keep a ghost history, and every method only adds protocol
steps to it, so each theorem about runs is a theorem about the manager. `Mountinfo` is the text from which a mount's source
and policy are read.

**SMB ownership on Windows** (`Text`, `WNetProtocol`, `WNetBackend`, `GlobalModel`, `GlobalRecovery`, `GlobalSMB`,
`LinkRecords`, `StagedLinkProtocol`, `StagedLinks`, `PreviousBoot`). Three stacked machines: the record of a
connection crossed with boots, logon sessions and live connections; the reference-counted mapping of a remote with
its cleanups and group recovery, which runs the first machine as its backend; and the publication of a link through a
staging directory.

**The relay** (`Relay`, `SocketMounts`). The accept loop, the sessions with their pumps and shutdown, as steps of
threads that interleave freely; and the lifetime of a relay against the mount that uses it.

**Codecs and stagers** (`Frames`, `LineFraming`, `LayerStage`, `LayerOrder`, `Whiteouts`). Frames on a guest stream, the line
framing of guest output, deferred hard links of a layer archive, and whiteouts to `tombstones.txt` and back (the OCI
Image Layer Filesystem Changeset specification, section "Whiteouts").

`dafny verify dfyconfig.toml` checks everything. `Options` holds the option type, `Writes` the ways a durable
write ends, `Text` what the text readers share.

## What turned out false, and the exact condition

- *Emitted lines do not depend on how the output was cut into writes* holds if and only if every finished line fits
  the 64 KiB cap and an unfinished last one exceeds it by at most one byte (`LineFraming.ChunkingExact`).
- *Staging does not depend on the order of links*: call a link chained if it names another link of the archive. An
  archive that some order stages is staged alike by every order if and only if, for every chained link, some parent
  has the named path and its topmost copy equals what the named link stands for: its file in the archive, or else
  the topmost parent's copy of its own target (`LayerOrder.OrderExact`, with `LayerOrder.ChainsDependOnOrder` as an
  example). Under that condition staging succeeds if and only if every link stands for something
  (`LayerStage.StageExact`); an archive without chained links meets it.
- *A whiteout in a walked directory comes back* holds if and only if its leaf is not empty, `.` or `..`, contains no
  backslash or newline and does not end in a carriage return (`Whiteouts.ProperLeavesExact`). Lines longer than the line
  reader's limit are an error; the walk compares directory names exactly.
- *The agent never cancels a connection it did not make* assumes that other software connects between operations only,
  and then needs one thing of it: not to connect as the recorded user to an endpoint whose record says "connected" in
  this boot and session. Connections of other users there, and of any user elsewhere, are safe (`WNetProtocol.NeverCancelsForeign`, `WNetProtocol.UnreservedIsSafe`);
  a connection of the same user there is cancelled by the next removal (`WNetProtocol.ReservationNeeded`).

## Model

| member | source | states |
|---|---|---|
| `Paths.PathsOverlapIsContainment` | cmd/hcsguest/share.go:303-309 | the textual overlap test is symmetric and equals component-prefix containment one way or the other |
| `Paths.OverlapIsSharedDescendant` | cmd/hcsguest/share.go:303-309 | two paths overlap exactly when some path lies inside both |
| `ShareTheorems.InitInv` | cmd/hcsguest/share_journal_linux.go:15-50 | an empty journal and no agent mounts satisfy the invariant |
| `ShareInvariant.EnvKeeps` | cmd/hcsguest/share_linux.go:330-332 | whatever other software does at one target keeps the invariant |
| `ShareInvariant.SaveKeeps` | cmd/hcsguest/share.go:157-166 | a save, or a failed one with the old or the new content, keeps the invariant at every place of every operation |
| `ShareInvariant.BeginKeeps` | cmd/hcsguest/share.go:222-245 | an admitted request's new entry keeps paths disjoint and the journal linked to the entries |
| `ShareInvariant.InvokeKeeps` | cmd/hcsguest/share.go:246-255 | calling the backend keeps the log of calls below the journal's generations |
| `ShareInvariant.OpenKeeps` | cmd/hcsguest/share_linux.go:190-223 | opening an unmounted target directory keeps the invariant |
| `ShareInvariant.CreateKeeps` | cmd/hcsguest/virtiofs_mount_linux.go:57-72 | a detached mount and its identity in memory keep the invariant |
| `ShareInvariant.AttachKeeps` | cmd/hcsguest/virtiofs_mount_linux.go:76-81 | moving the recorded mount onto the target leaves it described by the durable record |
| `ShareInvariant.AdoptKeeps` | cmd/hcsguest/virtiofs_mount_linux.go:82-86 | a cleanup adopted after the identity check keeps the invariant |
| `ShareInvariant.CaptureKeeps` | cmd/hcsguest/share_recovery_linux.go:68-84 | recording the mount id before "mounted" is saved keeps the invariant |
| `ShareInvariant.AbortKeeps` | cmd/hcsguest/share.go:273-279 | a failure without effect leaves no mount of the share behind |
| `ShareInvariant.LeaveKeeps` | cmd/hcsguest/share.go:366-372 | marking a share as being torn down keeps the invariant |
| `ShareInvariant.DetachKeeps` | cmd/hcsguest/share_recovery_linux.go:243-268 | the checked unmount removes exactly the share's own mount and disturbs no other record |
| `ShareInvariant.LoadKeeps` | cmd/hcsguest/share.go:81-100 | loading the journal after a crash re-establishes the invariant for the new manager |
| `ShareInvariant.RecoverOneKeeps` | cmd/hcsguest/share_recovery_linux.go:150-215 | recovering one entry, with or without a readable target, keeps the invariant |
| `ShareTheorems.NextInv` | cmd/hcsguest/share.go:199-397 | every step, crashes, reboots and interference included, keeps the invariant |
| `ShareTheorems.RunInv` | cmd/hcsguest/share.go:199-397 | the invariant holds at every point of every run |
| `ShareTheorems.RecoveryExact` | cmd/hcsguest/share_recovery_linux.go:150-215 | with nobody else at the target, the recovery verdict is "mounted" if and only if the agent's own mount is attached, else "absent", never undecided |
| `ShareTheorems.RestartIsExact` | cmd/hcsguest/share_recovery_linux.go:150-215 | killed at any point of any run, a restart classifies every undisturbed virtiofs share exactly and hands out a cleanup exactly for the mounted ones |
| `ShareTheorems.RecoverySound` | cmd/hcsguest/share_recovery_linux.go:150-195 | whatever others did, "mounted" means the agent's mount is on top and "absent" means it is attached nowhere |
| `ShareTheorems.RecoverFollowsVerdict` | cmd/hcsguest/share_recovery_linux.go:197-215 | recovery of an entry sets result and cleanup as the three-way verdict says |
| `ShareTheorems.OnlyOwnMounts` | cmd/hcsguest/share_recovery_linux.go:86-148 | an unmount or adoption happens only for the mount made for this share and generation, with the recorded unique id, source and policy, however plain ids were reused |
| `ShareTheorems.AtMostOnce` | cmd/hcsguest/share.go:222-260 | over any run, per boot and share the generations handed to the backend strictly increase |
| `ShareTheorems.DurableBeforeInvoke` | cmd/hcsguest/share.go:241-255 | the backend is called only when the matching pending record is durable |
| `ShareTheorems.IdentityDurableBeforeAttach` | cmd/hcsguest/virtiofs_mount_linux.go:70-78 | a mount reaches the tree only after its unique identity is durable |
| `ShareTheorems.ClaimedPathsDisjoint` | cmd/hcsguest/share.go:236-248 | entries that are mounted or undecided, and durable records not absent, have pairwise non-overlapping paths |
| `ShareRefinement.Simulates` | cmd/hcsguest/share.go:199-397 | every step of the crashing system is a step, or none, of a machine in which a share is a generation that is mounted or not |
| `ShareRefinement.RebootForgets` | cmd/hcsguest/share.go:88-93 | after a reboot no share of the old boot is known |
| `ShareRefinement.RepliesAreTrue` | cmd/hcsguest/share.go:311-341 | an OK answer of the manager is the state of the simple machine |
| `ShareAcks.AbsentReplySettles` | cmd/hcsguest/share.go:384-396 | an OK "absent" is durable when it is answered |
| `ShareAcks.AbsentSurvives` | cmd/hcsguest/share.go:355-396 | no step short of a new mount of the share or a reboot undoes a settled "absent" |
| `ShareAcks.AbsentIsRemembered` | cmd/hcsguest/share.go:355-396 | an acknowledged "absent", of any transport, is still the answer after crashes, restarts, failed saves and other shares' operations |
| `ShareAcks.MountedReplySettles` | cmd/hcsguest/share.go:290-300 | an OK "mounted" of a virtiofs share means mount, record and entry agree |
| `ShareAcks.MountedSurvives` | cmd/hcsguest/share.go:273-300 | no step short of its unmount, a reboot, interference at the target or a failed identity read disturbs a settled "mounted" |
| `ShareAcks.MountedIsRemembered` | cmd/hcsguest/share.go:273-300 | an acknowledged virtiofs "mounted" is still the answer after crashes and restarts |
| `Mountinfo.Match` | cmd/hcsguest/share_recovery_linux.go:94-122 | the loops over lines, fields and options compute the specified reading of the mount table |
| `Mountinfo.TableReads` | cmd/hcsguest/share_recovery_linux.go:94-122 | reading a table the kernel wrote gives the verdict on the mount with that id: same exactly when it is virtiofs with the recorded source and policy |
| `Mountinfo.TableVerifies` | cmd/hcsguest/share_recovery_linux.go:124-148 | the table's verdict completes the unique id to the check the share protocol makes of a mount |
| `Mountinfo.RowReads` | cmd/hcsguest/share_recovery_linux.go:96-119 | one row reads back as what it is, whatever its optional fields |
| `Mountinfo.DecimalInjective` | cmd/hcsguest/share_recovery_linux.go:97 | two mount ids with the same decimal text are the same id |
| `ShareManagement.Host.Save` | cmd/hcsguest/share_journal_linux.go:52-86 | a failed save leaves the old or the new content, a successful one the new |
| `ShareManagement.Host.CheckedUnmount` | cmd/hcsguest/share_recovery_linux.go:243-268 | the closure unmounts the top mount exactly if it is the recorded one and the unmount is not refused; busy exactly if it is and the unmount is refused as busy |
| `ShareManagement.Reconcile` | cmd/hcsguest/share_recovery_linux.go:150-215 | the imperative recovery of one entry is the specification function, branch by branch |
| `ShareManagement.ShareManager.constructor` | cmd/hcsguest/share.go:68-80 | a new process starts unloaded on the host its predecessor left |
| `ShareManagement.ShareManager.Prepare` | cmd/hcsguest/share.go:68-135 | for the agent without a previous-boot recovery, as on Linux (cmd/hcsguest/share_previous_linux.go:6): exactly which answer; once loaded nothing changes, and the first time every record is recovered from what its target shows and the result is saved |
| `ShareManagement.ShareManager.RecoverRecord` | cmd/hcsguest/share_recovery_linux.go:197-215 | recovers one entry from what its target shows and no other |
| `ShareManagement.ShareManager.RecoverBatch` | cmd/hcsguest/share_recovery_linux.go:197-215 | after the loop every entry is the recovery of its record from what its target showed, if nobody touched that target meanwhile |
| `ShareManagement.ShareManager.PathClaimed` | cmd/hcsguest/share.go:236-240 | finds an overlap with a mounted or undecided entry exactly when there is one |
| `ShareManagement.ShareManager.Admit` | cmd/hcsguest/share.go:222-240 | the refusals of a mount, in the source's order; what is admitted is admissible to the protocol |
| `ShareManagement.ShareManager.PersistPending` | cmd/hcsguest/share.go:246-255 | the record is durable before the backend is called, and the call is logged exactly then |
| `ShareManagement.ShareManager.MountVirtioFS` | cmd/hcsguest/virtiofs_mount_linux.go:38-87 | the first native call that fails decides the error: without effect before the mount is attached, and then the target is as it was; a lost journal write after the identity was to be saved. If none fails, the target shows exactly the mount that was created, with the recorded identity |
| `ShareManagement.ShareManager.FinishMount` | cmd/hcsguest/share.go:256-300 | the answer and the entry for each outcome of the backend, the last look at the target and the last save: mounted, durably absent with the error's code, or undecided |
| `ShareManagement.ShareManager.Mount` | cmd/hcsguest/share.go:199-301 | a refused request changes nothing and is answered as the source does; at most one backend call; for an admitted virtiofs share whose target nobody else touches meanwhile, the answer, the entry, the target and the record are those the native calls decide; for other transports the answer is that of the backend's error and the last look at the target |
| `ShareManagement.MountSucceeds` | cmd/hcsguest/share.go:241-300 | such a mount answers OK, mounted, exactly when every native call does what it should; then the durable record is the one of the mount on top, and its cleanup would remove it |
| `ShareManagement.ShareManager.StatusOf` | cmd/hcsguest/share.go:328-341 | answers the entry of that generation or why there is none, changing nothing once loaded |
| `ShareManagement.ShareManager.RunCleanup` | cmd/hcsguest/share.go:376-390 | after "detaching" is durable the closure removes its mount exactly if it finds it and is not refused; success leaves the entry undecided until the final save |
| `ShareManagement.ShareManager.PersistGone` | cmd/hcsguest/share.go:358-396 | "absent" enters the entry exactly with the successful save |
| `ShareManagement.ShareManager.TearDown` | cmd/hcsguest/share.go:366-396 | detaching, cleanup and absent in this order; with nobody else at the target, without a durable "detaching" or with a refusal everything stays, else the recorded mount goes, and the answer is OK absent exactly when that is durable |
| `ShareManagement.ShareManager.Unmount` | cmd/hcsguest/share.go:343-397 | OK exactly when the entry ends absent, and then durably; Busy exactly when the recorded mount is on top and in use; if the recorded mount is on top, the unmount is not refused and both saves succeed, the answer is OK absent and exactly that mount is gone; a lost final save is retried; only this entry changes |
| `ShareManagement.ShareManager.Truth` | cmd/hcsguest/share.go:311-341 | at any time between operations an OK status is the simple machine's state |
| `WNetProtocol.NextInv` | cmd/hcsguest/share_wnet_windows.go:53-153 | every step of the ownership protocol, crashes, reboots, logon changes and others' connections included, keeps the invariant |
| `WNetProtocol.NeverCancelsForeign` | cmd/hcsguest/share_wnet_windows.go:125-149 | over any run in which other software keeps only to that reservation, what a cancel meets is a connection of the record's own token, in this boot and session |
| `WNetProtocol.InstanceHasItsAdd` | cmd/hcsguest/share_wnet_windows.go:82-102 | an instance that carries a token was made by an add under that token whose intent was durable |
| `WNetProtocol.CancelledInstanceHasItsAdd` | cmd/hcsguest/share_wnet_windows.go:71-149 | every cancelled instance is the one created by the same token's add |
| `WNetProtocol.NoUntrackedConnection` | cmd/hcsguest/share_wnet_windows.go:82-121 | while a connection the agent made is live in this boot, a record with its token exists |
| `WNetProtocol.ReservationNeeded` | cmd/hcsguest/share_wnet_windows.go:125-149 | a connection that other software makes as the recorded user, where a connected record claims the endpoint, is cancelled by the next removal in that session |
| `WNetProtocol.UnreservedIsSafe` | cmd/hcsguest/share_wnet_windows.go:125-127 | a connection of another user there, or of any user elsewhere, keeps the invariant |
| `WNetBackend.ExpectedUserExact` | cmd/hcsguest/share_wnet_windows.go:155-168 | a reported user is accepted exactly when it is the expected name, or a plain expected name after a domain's last backslash |
| `WNetBackend.Backend.RunAdd` | cmd/hcsguest/share_wnet_windows.go:71-102 | succeeds exactly under the listed conditions, with the password the server asks for, and then leaves the connected record and the live connection of the token; refuses recorded and pre-existing connections without a change; a failed add leaves no record or an intent, unless the connection's user was the expected one and the last write may have taken effect |
| `WNetBackend.Backend.Settle` | cmd/hcsguest/share_wnet_windows.go:91-101 | the claim is kept only if the created connection has the expected user and the record is saved; a failure leaves the record an intent, except for that user's when the write may have taken effect |
| `WNetBackend.Backend.Release` | cmd/hcsguest/share_wnet_windows.go:134-149 | releasing, cancel, delete, each outcome; a connection that stays keeps its record |
| `WNetBackend.Backend.CancelLive` | cmd/hcsguest/share_wnet_windows.go:140-149 | a busy connection gets its connected record back, a cancelled one loses its record, any other failure leaves the record releasing |
| `WNetBackend.Backend.RunKnown` | cmd/hcsguest/share_wnet_windows.go:103-153 | who may remove or check, and that with nothing live, or after a reboot, a remove deletes the record from any phase |
| `WNetBackend.Backend.Run` | cmd/hcsguest/share_wnet_windows.go:53-153 | the exact success condition of add, check and remove; a check's OK means the live connection is the token's, made by the user its request expected; only a connected record's own connection may go |
| `GlobalModel.AnyOrder` | cmd/hcsguest/share_smb_windows.go:178-221 | effective cleanups one after another, in any order: the mapping is untouched before the last one and gone with it |
| `GlobalModel.WhileUsed` | cmd/hcsguest/share_smb_windows.go:178-221 | whatever operation comes next, a mapping in use stays current, its record unchanged while it has two users, and it ends only with its last user's effective cleanup |
| `GlobalModel.EndsOnce` | cmd/hcsguest/share_smb_windows.go:178-221 | over any run of cleanups, failing ones, mounts and what passes between, a mapping in use ends at most once, with its last user, and is never current again |
| `GlobalModel.ActsAtOthers` | cmd/hcsguest/share_smb_windows.go:71-176 | a mount, as its contract states it, is one of those operations for every entry |
| `GlobalModel.RetriesCountOnce` | cmd/hcsguest/share_smb_windows.go:187-219 | however often a cleanup is retried it returns at most one reference and removes its link at most once |
| `GlobalModel.ReleasedGood` | cmd/hcsguest/share_smb_windows.go:208-219 | an effective release keeps references equal to unreleased users and every linked user's mapping recorded |
| `GlobalModel.NativeGood` | cmd/hcsguest/share_smb_windows.go:93-132 | a native step at one endpoint keeps the mappings of all linked users |
| `GlobalModel.UseGood` | cmd/hcsguest/share_smb_windows.go:173-175 | one more cleanup and one more reference keep the count |
| `GlobalSMB.GlobalManager.Inspect` | cmd/hcsguest/share_smb_windows.go:88-107 | blocked, pending, conflicting and unverifiable entries are refused as the source does, and what each leaves |
| `GlobalSMB.GlobalManager.Establish` | cmd/hcsguest/share_smb_windows.go:108-148 | a new mapping is current before it is added; each failure's whole outcome |
| `GlobalSMB.GlobalManager.Publish` | cmd/hcsguest/share_smb_windows.go:149-176 | the link of one more user; on failure blocked, undone, pending or unchanged as the source decides, and exactly which links are there |
| `GlobalSMB.GlobalManager.Mount` | cmd/hcsguest/share_smb_windows.go:71-176 | exactly when it mounts, for a mapping joined, made, or made anew after its pending removal, and the answer to each refusal: awaiting recovery, other credentials, not verifiable; an entry in use is never replaced, only gains a user or becomes blocked; a mounted share's cleanup may remove its link |
| `GlobalSMB.ValidSourceExact` | cmd/hcsguest/share_smb_windows.go:74-77 | a source is accepted exactly when it is two backslashes, a server name, a backslash and a share name |
| `GlobalSMB.GlobalManager.Elapse` | cmd/hcsguest/share_smb_windows.go:44-48 | logon changes and connections that come and go between operations keep the manager's invariant |
| `GlobalSMB.GlobalManager.Unlink` | cmd/hcsguest/share_smb_windows.go:187-207 | the link goes exactly if the mapping is verified and the link is the recorded one; no other link ever goes; otherwise why it stays |
| `GlobalSMB.GlobalManager.GiveBack` | cmd/hcsguest/share_smb_windows.go:208-219 | the remove command goes out only for the last user, and a refusal keeps the reference |
| `GlobalSMB.GlobalManager.CleanUser` | cmd/hcsguest/share_smb_windows.go:181-220 | exactly when a cleanup takes effect and all of its effect; otherwise the first obstacle is the answer and what may be left |
| `GlobalSMB.GlobalManager.CleanFailedAdd` | cmd/hcsguest/share_recovery_windows.go:109-125 | forgets an intent nothing came of, exactly under the source's conditions, and never cancels a connection or drops an entry in use |
| `GlobalSMB.GlobalManager.FindOwner` | cmd/hcsguest/share_recovery_windows.go:236-243 | the recorded owners of a remote: one, under its key, or none |
| `GlobalSMB.GlobalManager.VerifyMembers` | cmd/hcsguest/share_recovery_windows.go:247-266 | true exactly when every member passes the checks against the first |
| `GlobalSMB.GlobalManager.VerifyGroup` | cmd/hcsguest/share_recovery_windows.go:234-269 | a group is adopted exactly when all members and the live mapping are verified |
| `GlobalSMB.GlobalManager.RecoverGroup` | cmd/hcsguest/share_recovery_windows.go:209-279 | all or nothing: failed add, adopted with one reference and cleanup per member, or blocked with none |
| `GlobalSMB.GlobalManager.RecoverBatch` | cmd/hcsguest/share_recovery_windows.go:184-280 | first recovery or a repeated one: every group of the recovered shares ends in one of the three ways, replacing any earlier entry, and every member of an adopted group gets a cleanup of its own path, source and recorded link that may remove it; shares that own nothing get an empty cleanup |
| `GlobalRecovery.GroupGood` | cmd/hcsguest/share_recovery_windows.go:270-278 | adding a recovered group keeps references equal to users |
| `GlobalRecovery.AdoptedGroupReleases` | cmd/hcsguest/share_recovery_windows.go:270-278 | an adopted group's cleanups, in any order, remove the mapping exactly once, at the last |
| `GlobalRecovery.AdoptedCanClean` | cmd/hcsguest/share_recovery_windows.go:270-278 | every member of an adopted group is handed a linked, unreleased cleanup of its own path, source and recorded link, on an entry with its members' credentials |
| `GlobalRecovery.RestartAdopts` | cmd/hcsguest/share_recovery_windows.go:234-279 | before and after: if the journals are those the mounts, finished or killed while publishing, left, the links of the mounted ones are as they made them and the connection is live, a restart adopts the group |
| `GlobalRecovery.EveryShareEnds` | cmd/hcsguest/share_recovery_windows.go:184-280 | what each share of a finished recovery is given: nothing if absent or of another transport, an empty cleanup if pending with nothing recorded, else its group's cleanup, or none while the group is blocked |
| `GlobalSMB.RecoveredMayClean` | cmd/hcsguest/share_smb_windows.go:181-220 | a recovered share whose link is the recorded one is cleaned up once its native calls succeed |
| `GlobalSMB.RecoveredMayJoin` | cmd/hcsguest/share_smb_windows.go:94-107 | a recovered mapping takes further shares with the credentials of its members and no others |
| `GlobalSMB.FailedStillIntent` | cmd/hcsguest/share_recovery_windows.go:109-125 | the cleanup handed out for a failed add finds the intent it needs |
| `GlobalSMB.RestartKeepsFailed` | cmd/hcsguest/share_recovery_windows.go:209-232 | before and after: a share alone on its endpoint whose add failed, with the intent still recorded, is recognized as such after a restart |
| `PreviousBoot.Recover` | cmd/hcsguest/share_recovery_windows.go:127-148 | after a reboot the link goes by its journal and the record is forgotten only if it is this share's, exactly when it succeeds; no connection is touched |
| `PreviousBoot.OwnsNothingExact` | cmd/hcsguest/share_recovery_windows.go:191-199 | a share that recovery takes to own nothing has no link its journal would remove and no connection record that could be its own |
| `StagedLinkProtocol.NextInv` | cmd/hcsguest/share_stage_windows.go:109-161 | every step of publication and removal, with crashes, failed saves and other software, keeps the durable record covering all the agent made |
| `StagedLinkProtocol.RemovesOnlyRecorded` | cmd/hcsguest/share_recovery_windows.go:91-102 | whatever the record and the disk, only objects with recorded identity, or the link inside the recorded directory, are removed |
| `StagedLinkProtocol.RemovalIsExact` | cmd/hcsguest/share_recovery_windows.go:150-163 | from any reachable state after the first durable stage record, removal leaves nothing of the agent and touches nothing else, unless something foreign is at the destination |
| `StagedLinkProtocol.RemovalResumes` | cmd/hcsguest/share_stage_windows.go:69-107 | removal interrupted after any step and retried ends as if it had not been |
| `StagedLinkProtocol.CrashSafe` | cmd/hcsguest/share_stage_windows.go:109-161 | the same over every run |
| `StagedLinks.Publisher.Publish` | cmd/hcsguest/share_stage_windows.go:109-161 | succeeds exactly when every step does and the destination was free; then the link and the final record are all that changed; nothing that existed is disturbed |
| `StagedLinks.Publisher.RemoveStage` | cmd/hcsguest/share_stage_windows.go:69-107 | the imperative removal of the stage equals its specification and can be resumed |
| `StagedLinks.Publisher.RemoveJournalLinks` | cmd/hcsguest/share_recovery_windows.go:150-163 | the imperative removal equals its specification and can be resumed after any failure |
| `Relay.NextInv` | cmd/hcsguest/share_linux.go:474-541 | every step of every thread keeps slots, trackers and owners of connections in order |
| `Relay.RelayLimits` | cmd/hcsguest/share_linux.go:490-507 | under every interleaving at most 16 sessions hold slots and at most 32 connections are tracked; nothing is tracked anew after close |
| `Relay.RefusedOnlyWhenFull` | cmd/hcsguest/share_linux.go:490-507 | over any run an accepted connection leaves the accept loop only with a session of its own, after close, or because sixteen sessions hold slots |
| `Relay.AdmittedWhenRoom` | cmd/hcsguest/share_linux.go:490-507 | while the relay is open and fewer than sixteen sessions hold slots an accepted connection gets a slot, a tracker and a session, and cannot be refused |
| `Relay.ShutdownIsComplete` | cmd/hcsguest/share_linux.go:531-541 | when close has returned every connection is closed, every session has ended and no step remains |
| `Relay.WorkDecreases` | cmd/hcsguest/share_linux.go:508-541 | once the listener is closed each step of any thread uses up work |
| `Relay.CloseTerminates` | cmd/hcsguest/share_linux.go:531-541 | at most that many steps follow |
| `Relay.CloseProgresses` | cmd/hcsguest/share_linux.go:508-541 | until close returns some step is enabled that no peer can hold up; a copy counts only once both its connections are closed |
| `SocketMounts.Agent.NewRelay` | cmd/hcsguest/share_linux.go:429-446 | the first free protected port, or the reason there is none |
| `SocketMounts.Agent.MountShare` | cmd/hcsguest/share_linux.go:256-313 | exactly when it fails and how; the history of native effects is relay, port in the journal, mount, in this order, and at each of them every attached share has its port recorded and a relay listening there; the port is the first free one; an error leaves no relay |
| `SocketMounts.Agent.Clean` | cmd/hcsguest/share_linux.go:314-361 | unmounts exactly when the top mount is the remembered one and not refused, and only after that, as a later step, closes the relay; otherwise the cleanup stays as it was, and is given up exactly when its descriptor could not be taken again after a refused unmount; Busy exactly when the attempted unmount was busy |
| `SocketMounts.RetriesSucceed` | cmd/hcsguest/share_linux.go:335-361 | after any number of busy or mismatching runs whose descriptors were taken again, the run that finds the mount on top and is not refused succeeds |
| `SocketMounts.Agent.KilledAnywhere` | cmd/hcsguest/share_linux.go:256-361 | wherever in its history the agent is killed, every attached share's port is in the journal and its relay was listening there |
| `SocketMounts.Agent.Record` | cmd/hcsguest/share_linux.go:264-269 | a saved, or possibly saved, relay port is one step and concerns no attached share |
| `SocketMounts.Agent.Recover` | cmd/hcsguest/share_recovery_linux.go:217-268 | a recovered mount is adopted with a relay at the recorded port exactly when that port can be had, and what its cleanup then remembers |
| `SocketMounts.Agent.Interfere` | cmd/hcsguest/share_linux.go:330-332 | others' mounts and unmounts never leave an attached share without its relay |
| `Frames.StreamRoundTrip` | internal/guestproto/frame.go:35-74 | a stream of frames decodes to those frames and then whatever follows decodes to |
| `Frames.CutStream` | internal/guestproto/frame.go:54-74 | a stream cut anywhere yields the whole frames before the cut and the right kind of end: bare, in a header, right after a header, in a payload |
| `Frames.DecodedIsPrefix` | internal/guestproto/frame.go:62-65 | whatever the bytes, no frame read exceeds the limit, and the frames read are a prefix of the stream, all of it exactly at a bare end |
| `Frames.DecodeEncode` | internal/guestproto/frame.go:35-50 | one frame followed by anything reads back, leaving the rest |
| `Frames.BigOrdered` | internal/guestproto/frame.go:42 | lengths compare as their header bytes do, the first byte first |
| `Frames.WriteFrame` | internal/guestproto/frame.go:35-50 | what is on the stream after success, after a failed write and after a refusal |
| `Frames.ReadFrame` | internal/guestproto/frame.go:54-74 | over a reader that hands out pieces of any size and then ends or fails, the result is the decoding of the stream, and a failure is told from an end |
| `LineFraming.StreamWriter.Write` | internal/cli/cli.go:207-222 | the loop over the buffer equals the newline split of what was buffered and written; each line goes out without one carriage return at its end |
| `LineFraming.StreamWriter.Close` | internal/cli/cli.go:224-230 | the rest goes out as a last line, without one carriage return at its end |
| `LineFraming.LineEndings` | internal/cli/cli.go:207-234 | a line ending in newline or in carriage return and newline is emitted as its text, one ending in two carriage returns loses one, and so does a last line |
| `LineFraming.FeedConserves` | internal/cli/cli.go:207-230 | what was emitted with its newlines, followed by the buffer, is the input; the buffer never exceeds the cap |
| `LineFraming.ChunkingIrrelevant` | internal/cli/cli.go:207-230 | if every line fits, what is emitted is the newline split, however the input was cut |
| `LineFraming.ChunkingMatters` | internal/cli/cli.go:217-220 | otherwise some way of cutting it emits other lines |
| `LineFraming.ChunkingExact` | internal/cli/cli.go:207-234 | the emitted lines are the newline split for every cutting if and only if the text fits |
| `LayerStage.Stage` | internal/transport/transport.go:94-169 | the two loops equal the two passes of the specification |
| `LayerStage.StageExact` | internal/transport/transport.go:105-169 | for distinct names whose chained links agree with the parents, staging succeeds exactly when every link stands for something, and the tree is the described one |
| `LayerStage.DescribedOnce` | internal/transport/transport.go:221-257 | an archive describes one tree: each link equals its target, or else the topmost parent's copy |
| `LayerStage.OrderIrrelevant` | internal/transport/transport.go:105-169 | then every permutation of the entries gives the same result |
| `LayerOrder.ChainsMatter` | internal/transport/transport.go:105-169 | if some chained link disagrees with the parents, an archive that some order stages has two orders that end differently |
| `LayerOrder.OrderExact` | internal/transport/transport.go:105-169 | an archive that some order stages is staged alike by all orders if and only if its chained links agree with the parents |
| `LayerOrder.ChainsDependOnOrder` | internal/transport/transport.go:105-112 | an example: a link to another link ends as the parent's copy or the archive's, depending on the order |
| `Whiteouts.Stage` | internal/transport/transport.go:94-195 | the text of tombstones.txt for an archive's whiteouts |
| `Whiteouts.ReadTombstones` | internal/transport/totar.go:205-228 | per directory exactly the recorded deletions, in order; a bad line or a wrong first line is an error |
| `Whiteouts.Walk` | internal/transport/totar.go:39-87 | each visited directory is followed by its whiteouts |
| `Whiteouts.CleanSteps` | internal/transport/transport.go:98-104 | in a name cleaned before it becomes a tombstone, a component followed by ".." cancels and "." does nothing, wherever they stand |
| `Whiteouts.WalkEmits` | internal/transport/totar.go:56-61 | whatever the file says, a walk emits exactly the deletions whose directory it visits |
| `Whiteouts.WhiteoutsRoundTrip` | internal/transport/totar.go:78-88 | staging and walking gives back exactly the archive's whiteouts below Files, as a multiset |
| `Whiteouts.ProperLeavesExact` | internal/transport/transport.go:98-104 | a whiteout in a visited directory comes back alone exactly when its leaf is proper |

## Left out

- The identity check of a cleanup and its unmount are one step, as the code's trusted, root-owned ancestors are meant to ensure (cmd/hcsguest/share_linux.go:330-332); the several reads of one recovery see one kernel state; a mount attaches only onto the directory that was opened.
- The journal is a map written only by its own saves: malformed, duplicate or foreign records, and records of other boots (the Linux journal lives under /run), are not part of the share protocol.
- JSON, hashes, random tokens and clocks: records are values, fingerprints and keys are injective, tokens and unique ids are fresh; boot time and protocol fields of results are not modelled.
- The mounts of the non-virtiofs backends are, to the share protocol, acts of other software; their pending records stay undecided on Linux (cmd/hcsguest/share_recovery_linux.go:218-220).
- Mountinfo.Match: fields are separated by spaces only, as the kernel escapes other blanks.
- ShareManagement.ShareManager.Prepare: the loop over records of other boots (cmd/hcsguest/share.go:101-112) is not modelled; what it does to one record on Windows is PreviousBoot.Recover.
- StagedLinks.Publisher.RemoveJournalLinks: works on the durable record; the in-memory one the source passes equals it whenever a cleanup exists, as a publication ends with both equal or hands out none.
- Paths of the Windows shares are compared without regard to case in group recovery; the path claim of the share protocol is the Linux one.
- ShareManagement.ShareManager.Interfere: its contract allows any change other software may make; its body is one allowed behaviour.
- ShareManagement.ShareManager.Mount: a nil request is not modelled. What a mount or an unmount of a virtiofs share answers is stated exactly when nobody else acts at its target meanwhile; with others at work what holds is the invariant, what OK and Busy mean, and the answers that do not depend on the target. The names of system errors are reduced to the classes the answer distinguishes.
- A prepare that fails its save after recovery reruns recovery from a fresh map (cmd/hcsguest/share.go:121-124): covered for the share protocol and the SMB mappings, not for the relays the first recovery opened.
- GlobalSMB.GlobalManager.RecoverBatch: a repeated recovery is modelled for a journal that still has the endpoints of the first.
- GlobalSMB.GlobalManager.Publish: publication of a managed link is one outcome here; its steps are in StagedLinks.
- Heap references of globalEntry and the closures that share them are indices into sequences; the memory model of goroutines is interleaving of whole steps.
- Before the first stage record is durable an empty staging directory may leak (cmd/hcsguest/share_stage_windows.go:110-122); others renaming the agent's link elsewhere is not modelled; staging names are unguessable.
- WNetBackend.Backend.Run: letter case is folded for ASCII only, in names of remotes and users; the registry holds only records its own puts wrote.
- Relay: sockets carry no data, the three-second dial timeout is a dial that fails, and close is called once.
- Reparse-buffer parsing (cmd/hcsguest/share_recovery_windows.go:54-81): a link's target is read off the disk state.
- LayerStage.Stage: directories, sidecars, statistics, compression and the hive stubs are not modelled; blobs are opaque.
- Whiteouts.Walk: the other entries of a walk are not modelled; the visited directories are a parameter.
- VSMB, bindflt and 9p options, legacy mount handlers, exec, netconfig, CLI output, storage, images and virtual machines: thin wrappers or host calls with no protocol of their own.

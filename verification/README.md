# Verification of Desk's state machines

Desk runs terminal sessions of coding agents. This project models the parts of
it whose promises span many steps, and proves those promises for every input
and every run: the journal that hands a Claude conversation from one profile to
another, the three-way synchronization of Claude's memory trees, the incremental
terminal tokenizer, the broker between agent hosts and browser surfaces, the
identities in the desk manifest, and two refinement cores, the merge of agent
hooks and the bounded scan of transcript evidence.

Each part has the form of its source. What the program changes in place is a
class (`SessionStore`, `MemoryStore`, `TerminalSequenceTokenizer`,
`AgentSurfaceSession`, `File`, `ConfigFile`) whose methods keep the source's
loops and branches and are proved equal to a specification function of the old
state; what it computes is a function. The promises are lemmas about the
specification. Beside them, lemmas named `Outcome` or `Iff` (`HandoffOutcomes`,
`HandoffGuards`, `BrokerSteps`, `TokenizerMarks`, `ManifestOutcomes`,
`HooksOutcomes`) say of each operation exactly when it refuses and what it leaves
otherwise, in the state's own terms. Verify everything with `dafny verify dfyconfig.toml`.

## The parts and what they assume

**Handoff journal** (`Handoff*.dfy`). The file system is a map from link
locations to inodes plus the five control records. Every link, replacement,
removal and record write is one operation; a fate is drawn before each: it
proceeds, the process dies, or it throws before or after its effect. An inode
is a number with its bytes, and no operation writes into one. Roots are disjoint
by construction, a relative path is its rank in the sorted order, roots are a
function of the profile, one session and one working directory are modelled,
generation ids are fresh, and nobody else writes the files. A recursive removal
is a sequence of single removals. Source and target may be the same profile. In
a run a rollback or a finalization follows a handoff that ended normally, as in
`executeClaudeProfileHandoff`; in between, others may recover the store and
confirm starts. A start may be confirmed at any moment.

**Memory sync** (`Memory*.dfy`). A tree maps paths to files, a file is its
content digest and mode, and a snapshot also has the paths it must not touch.
Contents equal in digest are equal; nobody edits during a sync; the trees stay
under the byte caps; no path is a file in one tree and a directory in another;
modes survive writing. Each pass may write its paths in any order, which covers
the sorted order of the source. A file is created under a temporary name and
renamed, in two steps; the random part of that name ends no name in use, and what
a crash leaves under it may be whole or torn.

**Tokenizer** (`Tokenizer*.dfy`). Streams are sequences of UTF-16 code units, in
the style of sections 5.4 and 5.6 of ECMA-48. The theorems about whole streams
are about one final flush.

**Broker** (`Broker*.dfy`). One session, with hosts and producers as objects
referred to by index. Each `await` splits a handler: bind, completion and
retirement settle at any later step, and hellos, closes and subscriptions may
come in between. `spawns`, `log`, `bound` and the index in an event frame are
history, which no step reads. An unreadable durable binding and a timeout are
one refused outcome.

**Manifest** (`SessionId.dfy`, `Ordering.dfy`, `Manifest*.dfy`). Every exported
mutation of `config.ts`, the three identity transactions and id minting. Lower
case conversion, the set of providers and the shape of their ids are parameters;
fields no mutation looks at are opaque.

**Evidence** (`Evidence.dfy`) takes decoding, parsing and eligibility of a line
as one function of its bytes. **Hooks** (`Hooks*.dfy`) works on JSON values; the
text form of a matcher that is no string is a parameter.

## Where the code does less than its documentation says

- Recovery refuses exactly when the journal's target is neither profile of the
  call. This also holds for a journal that is closed as rolled back, where
  nothing is left to recover (`RefusesIff`, `ClosedRefused`).
- A crash inside a post-commit rollback is undone exactly when the journal was
  closed already, or the generation is there and every link still in place
  (`PostCommitCrashIff`). Otherwise the next recovery accepts the handoff with a
  link missing (`RollbackCrashAccepted`), or refuses once the generation is
  gone. A crash inside the inline rollback of a throw behind `commit.json` is
  also undone once the old commit record is back (`InlineCrashIff`), and
  otherwise mostly refused for good (`InlineCrashRefused`).
- Confirming a start never looks at the journal. Between a crashed handoff back
  to its source profile and the next recovery it can take the last link to a
  file that the journal must put back, or a link it must find, and no recovery
  succeeds any more (`ConfirmationWedges`, `CommittedConfirmationWedges`).
  `ConfirmRecoverableIff` says exactly when, `WouldWedgeIff` before the call.
- A recovery by another start drops retained backups; the rollback that follows
  then fails if the handoff had replaced a file (`DroppedBackups`).
- A failed restore still removes every backup (`FailedRestoreRefuses`). A throw
  in the cleanup, where backups are partly gone, therefore cannot be rolled back
  once a replaced file has lost its backup (`InlineRollback`, `CleanupThrow`,
  `TwiceLost`). Over whole runs, `EveryRunSettlesIff` says which disks recovery
  still resolves; no run changes or removes a file of a profile, except that a
  target path becomes a link to the same bytes and a confirmation removes links
  the store also holds (`FilesSurvive`).
- The memory sync is called recoverable without a journal. It is, unless the
  crash left a temporary file in the canonical or the profile tree, which the
  next sync takes for a new file and copies into all three trees; one left in
  the base disappears (`CrashConvergence`).
- The tokenizer's header promises that raws reproduce the input. This holds of
  an input exactly when it contains no OSC aborted by an ESC that no backslash
  follows; each such OSC loses one ESC (`LosslessInputs`, `LosslessIff`), and a
  control sequence behind it can lose its private prefix
  (`AbortedOscLosesPrefix`). Fields are faithful exactly when no sequence behind
  an aborted OSC completes (`PushedFields`). A flush leaves the sequence buffer
  filled, so a second one emits the sequence again (`SecondFlush`). The comment
  on it says a bare CSI becomes text; it becomes a control sequence
  (`FlushedMarks`).
- Moving a session from a project to a root group writes the old projects back,
  so the session appears twice (`MoveConservesIff`). The manifest then fails its
  own uniqueness check: it cannot be read or changed any more
  (`DuplicateWedges`).
- The truncated scan tests an unfinished fragment for its size without looking
  at the record cap, so it can say oversized where the whole file says
  exhausted (`TruncatedAgreesIff`, `PastCapExhausts`, `PastCapExample`).
- Merging hooks replaces an event's value that is no array, and drops a group's
  `hooks` field that is no array, although pruning keeps both (`MergeLosesIff`).
- Directory names that spell zero sort the longer spelling first, those of every
  other number the shorter one (`ComparesNumbers`).
- Minting ends for every set of taken ids below two to the power 53, where the
  loop counter is exact; beyond that the counter itself would stop growing.

## Model

| member | source | states |
|---|---|---|
| `Handoff.Envelope` | src/server/claudeProfileContinuity.ts:982-1007 | a profile's session envelope lists exactly its session files, in strictly increasing order |
| `HandoffStore.SessionStore.CreateLinkBackups` | src/server/claudeProfileContinuity.ts:558-588 | every existing destination gets a backup link in plan order; the first failure throws and stops the loop |
| `HandoffStore.SessionStore.ReplaceWithHardlink` | src/server/claudeProfileContinuity.ts:921-951 | one destination becomes a link of the source inode in one step, or nothing changes and it throws |
| `HandoffStore.SessionStore.LinkArtifacts` | src/server/claudeProfileContinuity.ts:1379-1391 | store link then target link of every artifact, in order |
| `HandoffStore.SessionStore.RestorePlan` | src/server/claudeProfileContinuity.ts:597-624 | one slot goes back: removed if it did not exist, relinked from its backup, or accepted if it still is the original inode; otherwise the failure is only collected |
| `HandoffStore.SessionStore.RollbackLinkPlans` | src/server/claudeProfileContinuity.ts:590-632 | all slots restored in reverse order, then all backups removed, then the collected failures thrown |
| `HandoffStore.SessionStore.RestorePreviousControlRecords` | src/server/claudeProfileContinuity.ts:717-747 | generation and commit records return to the previous generation, or disappear; a missing previous record throws |
| `HandoffStore.SessionStore.RollBackAttempt` | src/server/claudeProfileContinuity.ts:894-899 | links, immutable generation, control records, then the journal closed as rolled back |
| `HandoffStore.SessionStore.ValidateCommittedLinks` | src/server/claudeProfileContinuity.ts:749-815 | true exactly when every artifact is the same inode in store and target, with the recorded size |
| `HandoffStore.SessionStore.RecoverInterruptedHandoff` | src/server/claudeProfileContinuity.ts:833-900 | the machine after a recovery, crash and failure points included, is the one the recovery program gives; each refusal branch leaves the disk alone |
| `HandoffStore.SessionStore.PrepareClaudeSessionHandoff` | src/server/claudeProfileContinuity.ts:1279-1426 | recovery, admission, then the transaction, each stopping at its first failure |
| `HandoffStore.SessionStore.Perform` | src/server/claudeProfileContinuity.ts:1373-1425 | journal first, the forward writes, and on a throw the inline rollback, whose own failure replaces the error |
| `HandoffStore.SessionStore.Forward` | src/server/claudeProfileContinuity.ts:1375-1406 | backups, links, immutable generation, prepared, commit, generation, committed, and the backups removed unless they are retained |
| `HandoffStore.SessionStore.RollbackClaudeSessionHandoff` | src/server/claudeProfileContinuity.ts:1459-1480 | only the committed generation named by the caller is rolled back; anything else refuses without a write |
| `HandoffStore.SessionStore.FinalizeClaudeSessionHandoff` | src/server/claudeProfileContinuity.ts:1439-1457 | only the committed generation named by the caller loses its backups |
| `HandoffStore.SessionStore.ConfirmClaudeSessionStart` | src/server/claudeProfileContinuity.ts:1612-1635 | of the source links exactly those that are the same inode as the store link are removed, in order |
| `HandoffInvariant.PlanIsSound` | src/server/claudeProfileContinuity.ts:1331-1372 | the plan made at admission is faithful: each slot recorded with its inode or as absent, none twice, sources present, target bytes equal |
| `HandoffGuards.PrepareRefusesIff` | src/server/claudeProfileContinuity.ts:1279-1329 | a handoff on a settled store that nothing disturbs: refused for a journal of other profiles, a missing transcript, or a file the target holds that the source lacks or holds differently, each exactly then and without changing more than leftover backups; otherwise it ends committed with every source file in store and target |
| `HandoffGuards.GuardRefusesIff` | src/server/claudeProfileContinuity.ts:1439-1480 | under any fates rollback and finalization refuse before their first operation if and only if the journal is not the committed one of the generation the caller names |
| `HandoffGuards.LateUndoRefused` | src/server/claudeProfileContinuity.ts:1459-1480 | over runs: after a later handoff that ended normally and any visits, undoing or finalizing an older one changes nothing |
| `HandoffOutcomes.OpFailsIff` | src/server/claudeProfileContinuity.ts:558-632 | an undisturbed operation fails exactly for a missing source, a backup name in use, a missing previous record or collected failures, and then changes nothing |
| `HandoffOutcomes.FateOutcome` | src/server/claudeProfileContinuity.ts:833-900 | what a death or a throw before or after its effect makes of any operation |
| `HandoffOutcomes.RecoverOutcome` | src/server/claudeProfileContinuity.ts:833-900 | recovery on any disk: it refuses before its first operation if and only if it cannot name the target, the committed generation is missing or not in place (one inode of the recorded size in store and target for every artifact), or the commit record is of an unrelated generation; and what it does otherwise |
| `HandoffOutcomes.UndoOutcome` | src/server/claudeProfileContinuity.ts:590-632 | an undisturbed rollback of any journal that plans no location twice: every location back, the backups gone, and a refusal if and only if a changed location had lost its backup or the previous record is missing |
| `HandoffOutcomes.RollbackOutcome` | src/server/claudeProfileContinuity.ts:1459-1480 | the same for a rollback asked for, with the target links under the caller's profile |
| `HandoffForward.BackupRun` | src/server/claudeProfileContinuity.ts:558-588 | wherever the backup loop stops, every slot still is original and the backups made so far hold original inodes |
| `HandoffForward.RelinkRun` | src/server/claudeProfileContinuity.ts:1379-1391 | wherever the link loop stops, every slot is original or linked and undoable |
| `HandoffForward.UnlinkRun` | src/server/claudeProfileContinuity.ts:625-625 | removing backups removes only backups of that generation, however far it gets |
| `HandoffForward.ForwardRun` | src/server/claudeProfileContinuity.ts:1375-1406 | wherever the transaction stops it is either undoable with the old records or fulfilled with the new commit record |
| `HandoffRecovery.RestoreRun` | src/server/claudeProfileContinuity.ts:597-624 | under any fates and on any disk with faithful backups: wherever the restore loop stops each location is as it was or as before the handoff, no backup changed, and a loop that collected no failure has put every slot back |
| `HandoffRecovery.UnwindRun` | src/server/claudeProfileContinuity.ts:894-899 | under any fates and whatever links confirmations removed: a rollback completes only with every slot and record as before the handoff; wherever it stops each location is as it was or as before, and the records went back in order behind the links |
| `HandoffRecovery.UndoRun` | src/server/claudeProfileContinuity.ts:894-899 | the same where every slot is original or linked: it completes only as the exact inverse, and every slot stays original or linked |
| `HandoffRecovery.RollbackRun` | src/server/claudeProfileContinuity.ts:894-899 | a rollback that runs to its end restores every link and record exactly; stopped anywhere every slot can still be undone, and while uncommitted it can be run again |
| `HandoffRecovery.RecoverInterrupted` | src/server/claudeProfileContinuity.ts:894-899 | recovery of an interrupted handoff either crashes in a state it can be run on again or restores everything |
| `HandoffRecovery.RecoverFulfilled` | src/server/claudeProfileContinuity.ts:852-879 | recovery of a handoff whose commit record is written completes it, and a crash leaves it completable |
| `HandoffRecovery.RecoverNamed` | src/server/claudeProfileContinuity.ts:852-879 | under any fates, recovery of a disk whose commit record names the attempt accepts it exactly when its generation is there and the journal is committed or the links match, and otherwise refuses without a write |
| `HandoffRecovery.RecoverSettled` | src/server/claudeProfileContinuity.ts:842-848 | recovery of a closed journal changes nothing but leftover backups, whatever interrupts it |
| `HandoffTheorems.TransactCrash` | src/server/claudeProfileContinuity.ts:1373-1406 | a crash at any operation leaves the start, an undoable state or a fulfilled one; a normal end is fulfilled |
| `HandoffTheorems.RecoveriesStay` | src/server/claudeProfileContinuity.ts:833-900 | any number of recoveries that die at any operation stay on the same side of the commit record |
| `HandoffTheorems.CrashAtomicity` | src/server/claudeProfileContinuity.ts:833-900 | crash anywhere in a handoff, any crashes in recoveries, one recovery to its end: everything is as before or as after, and commit.json at the first crash decides which |
| `HandoffTheorems.FilesKept` | src/server/claudeProfileContinuity.ts:1308-1329 | on every disk whose slots are original or linked, which is every disk a handoff, recovery or rollback can stop at: no source path and no unplanned path changed, and a target path that existed holds the same bytes |
| `HandoffTheorems.RollbackInverse` | src/server/claudeProfileContinuity.ts:1459-1480 | a completed rollback after a prepare with retained backups gives back the whole disk, except the journal, which is closed |
| `HandoffTheorems.RefusesIff` | src/server/claudeProfileContinuity.ts:817-831 | on every disk recovery can still bring to an end, which is every disk a crash can leave, recovery refuses if and only if the journal's target is neither profile of the call |
| `HandoffTheorems.ClosedRefused` | src/server/claudeProfileContinuity.ts:817-848 | counterexample: a journal closed as rolled back that a call for another profile cannot recover |
| `HandoffTheorems.RecoverConsistent` | src/server/claudeProfileContinuity.ts:833-900 | recovery keeps such disks among them, whatever kills it, and settles them when it ends |
| `HandoffLimits.RestoreFailures` | src/server/claudeProfileContinuity.ts:590-632 | the restore loop reports a failure if and only if some changed slot has lost its backup |
| `HandoffLimits.SafeIffNoneLost` | src/server/claudeProfileContinuity.ts:605-620 | every slot can be undone if and only if none is lost |
| `HandoffLimits.FailedRestoreRefuses` | src/server/claudeProfileContinuity.ts:625-631 | after a failed restore all backups are removed all the same, and then the rollback throws |
| `HandoffLimits.RollbackCompletesIff` | src/server/claudeProfileContinuity.ts:590-632 | an uninterrupted rollback puts every slot and record back if and only if no slot is lost, and the whole disk if no other link went; otherwise it throws, with the backups gone and the records unchanged |
| `HandoffLimits.InlineRollback` | src/server/claudeProfileContinuity.ts:1407-1424 | a throw anywhere, its rollback uninterrupted: if no slot is lost the disk is restored exactly and the error is the throw's, otherwise the rollback fails, removes the backups and leaves the records |
| `HandoffLimits.LostOnlyInCleanup` | src/server/claudeProfileContinuity.ts:1375-1406 | no slot is lost before the first backup is removed: only a cleanup of a committed handoff that does not retain backups can lose one |
| `HandoffLimits.CleanupThrow` | src/server/claudeProfileContinuity.ts:1403-1424 | on every admitted disk, a throw of the last cleanup removal makes the rollback fail if and only if the handoff had replaced a file by another inode |
| `HandoffCrashes.RollbackCrashIff` | src/server/claudeProfileContinuity.ts:833-900 | a rollback that dies anywhere: the next recovery ends on the disk of before or after if and only if the journal was closed, or commit record and generation are there and all links still linked, or the old commit record is back and the journal is not committed |
| `HandoffCrashes.PostCommitCrashIff` | src/server/claudeProfileContinuity.ts:1459-1480 | the same for a committed handoff, and otherwise: accepted as committed with links missing while the generation is there, refused from then on |
| `HandoffCrashes.InlineCrashIff` | src/server/claudeProfileContinuity.ts:1407-1424 | the same for the inline rollback before the journal is closed: resolved if and only if the journal was closed, the old commit record is back, or no link changed and the generation is there |
| `HandoffCrashes.RollbackCrashAccepted` | src/server/claudeProfileContinuity.ts:1459-1480 | counterexample, on every admitted disk whose last destination is new: prepared, its rollback dead after one restore, the next recovery accepts it as committed with that link missing |
| `HandoffCrashes.InlineCrashRefused` | src/server/claudeProfileContinuity.ts:1407-1424 | counterexample, on every such disk: the write behind commit.json throws, the inline rollback dies after one restore, and every later recovery refuses |
| `HandoffCrashes.AloneCrashes` | src/server/claudeProfileContinuity.ts:1290-1329 | such a disk: one transcript in the source profile and none in the target |
| `HandoffCrashes.TwiceLost` | src/server/claudeProfileContinuity.ts:1403-1424 | counterexample: the same bytes under two inodes, and a throw at the end of the cleanup makes the rollback fail |
| `HandoffLimits.ConfirmKeepsArtifacts` | src/server/claudeProfileContinuity.ts:1612-1635 | whatever interrupts it, confirmation removes a source link only while the store link is the same inode and stays; to its end it leaves exactly the differing ones |
| `HandoffConfirm.ConfirmRecoverableIff` | src/server/claudeProfileContinuity.ts:1602-1635 | a confirmation stopped anywhere makes a recoverable disk unrecoverable if and only if the journal is open and it took an existing planned destination without a backup, while commit.json is the old one, or a target link of the generation commit.json names; its source is then the interrupted target |
| `HandoffConfirm.WouldWedgeIff` | src/server/claudeProfileContinuity.ts:1602-1635 | the same read off before the call, from the source links that are the store's inode: it decides an undisturbed confirmation, and where it says no none does harm |
| `HandoffWedges.ConfirmationWedges` | src/server/claudeProfileContinuity.ts:1602-1635 | counterexample: a handoff back to the first profile dies right behind its journal, the first start is confirmed, and every later recovery reports a corrupt store, although nothing threw |
| `HandoffWedges.CommittedConfirmationWedges` | src/server/claudeProfileContinuity.ts:1602-1635 | counterexample: the same with a death between commit.json and generation.json |
| `HandoffRuns.RecoverTracked` | src/server/claudeProfileContinuity.ts:833-900 | recovery that may die or throw anywhere, on a disk from which confirmations may have taken links: each location is as it was or, if planned, as before; the disk stays one of the attempt or is rolled back, and settles when it ends |
| `HandoffRuns.TransactLineage` | src/server/claudeProfileContinuity.ts:1373-1425 | a handoff that may die or throw anywhere, its inline rollback included, leaves its start, a disk of the attempt, or the old disk with a closed journal |
| `HandoffRuns.VisitedRollbackIff` | src/server/claudeProfileContinuity.ts:1459-1480 | a rollback after any recoveries and confirmations by others puts every slot and record back if and only if no slot is lost |
| `HandoffRuns.DroppedBackups` | src/server/claudeProfileContinuity.ts:1459-1480 | after a recovery has dropped the retained backups the rollback completes if and only if the handoff had replaced no file |
| `HandoffRuns.EveryRunSettlesIff` | src/server/claudeProfileContinuity.ts:833-900 | after every run of handoffs, recoveries, rollbacks, finalizations and confirmations in which any operation may die or throw, a completed recovery settles the store if and only if the target is resolved and the journal is closed, or committed under a commit record and generation it names, or prepared with matching links, or uncommitted with no slot lost |
| `HandoffRuns.FilesSurvive` | src/server/claudeProfileContinuity.ts:1308-1329 | over every such run a file a profile held keeps its bytes, and its inode unless its profile is a target, apart from a confirmation that removes it over the same inode in the store |
| `HandoffRuns.ActConsistent` | src/server/claudeProfileContinuity.ts:833-900 | every action in which only the last forward operation throws, no confirmation takes a link an open journal needs and no rollback dies behind the removal of its generation, leaves a disk recovery can bring to an end |
| `HandoffRuns.EveryRunRecovers` | src/server/claudeProfileContinuity.ts:833-900 | after every run of such actions a completed recovery leaves commit.json and generation.json naming one generation whose immutable record exists, or refuses for an unrelated profile and changes nothing |
| `MemorySync.MemoryStore.ApplySnapshot` | src/server/claudeProfileMemory.ts:191-244 | in any order, exactly the differing unblocked paths are written, up to a crash; a crash inside a write leaves one temporary file beside its path |
| `MemorySync.MemoryStore.MergePath` | src/server/claudeProfileMemory.ts:393-424 | the verdict of one path: skipped, conflicting, or the agreed version |
| `MemorySync.MemoryStore.MergeTrees` | src/server/claudeProfileMemory.ts:390-428 | the merge loop computes, for all three trees at once, the merge of every settled path, and the set of diverged paths |
| `MemorySync.MemoryStore.SynchronizeLocked` | src/server/claudeProfileMemory.ts:337-444 | canonical, then profile, then base, stopped after any step of any write, with the temporary file that step leaves; the conflicts are those of the untouched trees |
| `MemoryTheorems.NoLostEdit` | src/server/claudeProfileMemory.ts:362-428 | per path: the version that differs from the base ends up in all three trees, or nothing changed and a conflict is recorded; the base moves only to what both others hold |
| `MemoryTheorems.ArtifactShields` | src/server/claudeProfileMemory.ts:216-221 | a path with a prefix that is an unsafe artifact of any tree keeps its version in all three trees, at the end and at every stop, and is recorded as no divergence |
| `MemoryTheorems.OpenPathMerged` | src/server/claudeProfileMemory.ts:394-428 | every other path gets the edited version in all three trees, or nothing changes and the divergence is recorded |
| `MemoryTheorems.ArtifactsRecorded` | src/server/claudeProfileMemory.ts:371-388 | the conflicts are exactly the artifacts, each under its tree, and the diverged paths |
| `MemoryTheorems.EditsNeverOverwritten` | src/server/claudeProfileMemory.ts:430-435 | at every crash point an edited version is still where it was edited, and a base that moved equals profile and canonical, except at a temporary name |
| `MemoryTheorems.StopOutcome` | src/server/claudeProfileMemory.ts:430-435 | wherever a synchronization stops: other branches and artifacts stay, each tree holds of every path its old or merged version and at most one file being written, and the profile changes only behind the whole canonical tree, the base only behind both |
| `MemoryTheorems.CompleteOutcome` | src/server/claudeProfileMemory.ts:430-435 | one that nothing stops leaves the store with the merged trees |
| `MemoryTheorems.TempBeside` | src/server/claudeProfileMemory.ts:191-203 | a file being written is beside its path, under its name with .tmp- and the nonce |
| `MemoryTheorems.CompletePasses` | src/server/claudeProfileMemory.ts:433-435 | the three passes, complete, end in the merged trees |
| `MemoryTheorems.CrashConvergence` | src/server/claudeProfileMemory.ts:430-435 | stopped after any steps of the three passes and run again, a sync records the same conflicts, and ends in the same three trees as an uninterrupted one if and only if no temporary file was left in the canonical or profile tree; one left there ends in all three |
| `MemoryTheorems.LitterSpreads` | src/server/claudeProfileMemory.ts:191-203 | counterexample: a first sync that dies while writing its one file into the canonical tree |
| `MemoryTheorems.CleanSync` | src/server/claudeProfileMemory.ts:362-435 | a sync without conflict leaves one tree three times |
| `MemoryTheorems.CleanRoundQuiets` | src/server/claudeProfileMemory.ts:390-435 | a round without conflict leaves every visited branch without edits of its own |
| `MemoryTheorems.QuietRound` | src/server/claudeProfileMemory.ts:390-435 | over such branches a round changes no canonical file and brings every visited one into step |
| `MemoryTheorems.MultiProfileConvergence` | src/server/claudeProfileMemory.ts:390-435 | one round over all branches without conflict, then a second one in any order: canonical unchanged, every visited profile and base equal to it |
| `MemoryTheorems.ReplacedOnlyWhenSeen` | src/server/claudeProfileMemory.ts:362-435 | over every run of edits and syncs of many branches, each stopped anywhere, a canonical version is replaced only for a branch whose base held exactly that version, or by a temporary file left under that name |
| `TokenizerTheorems.SkipSafeIff` | src/shared/terminalSequenceTokenizer.ts:90-97 | between pushes a chunk without ESC and BEL may be passed on as text unseen if and only if hasPending is false |
| `Tokenizer.TerminalSequenceTokenizer.Consume` | src/shared/terminalSequenceTokenizer.ts:128-227 | one code unit moves the scanner and emits tokens as the specification step does, the replay of an aborted OSC included |
| `Tokenizer.TerminalSequenceTokenizer.PushChunk` | src/shared/terminalSequenceTokenizer.ts:101-109 | a chunk is fed unit by unit, then buffered text is emitted |
| `Tokenizer.TerminalSequenceTokenizer.FlushStream` | src/shared/terminalSequenceTokenizer.ts:111-119 | buffered text, then the partial sequence; the sequence buffer is not cleared |
| `TokenizerTheorems.AbortStep` | src/shared/terminalSequenceTokenizer.ts:193-202 | an aborted OSC emits the OSC without its ESC and goes on as after a textless ESC |
| `TokenizerTheorems.BufferBounded` | src/shared/terminalSequenceTokenizer.ts:128-240 | over every stream text is held only in ground and a pending sequence never exceeds 8193 code units |
| `TokenizerTheorems.FlushPointIrrelevant` | src/shared/terminalSequenceTokenizer.ts:101-109 | emitting buffered text at a chunk end changes only where text tokens split |
| `TokenizerTheorems.ChunkInvariance` | src/shared/terminalSequenceTokenizer.ts:14-18 | for every input and every cut into chunks the tokens, fields included, are those of one push once adjacent text is joined |
| `TokenizerTheorems.SameStreamSameTokens` | src/shared/terminalSequenceTokenizer.ts:14-18 | two cuts of the same input give the same tokens up to joined text |
| `TokenizerTheorems.ExactLosslessness` | src/shared/terminalSequenceTokenizer.ts:14-18 | the input is the raws with one ESC put back after every OSC a push aborted |
| `TokenizerTheorems.LosslessIff` | src/shared/terminalSequenceTokenizer.ts:14-18 | the raws are the input if and only if no pushed OSC was aborted; each aborted one costs exactly one code unit |
| `TokenizerTheorems.LosslessInputs` | src/shared/terminalSequenceTokenizer.ts:14-18 | the promise of the header holds of an input, for every chunking, if and only if the input has no OSC cut off by an ESC that no backslash follows |
| `TokenizerTheorems.SecondFlush` | src/shared/terminalSequenceTokenizer.ts:111-120 | a second flush emits the sequence of the first again, as text, and only that |
| `TokenizerTheorems.PushAfterFlush` | src/shared/terminalSequenceTokenizer.ts:101-120 | a push after a flush emits what it would on a fresh tokenizer, and leaves it like one if and only if nothing was pending or the chunk has an ESC |
| `TokenizerFields.PushedFields` | src/shared/terminalSequenceTokenizer.ts:187-289 | each pushed token spells its raw text or lost its ESC to an aborted OSC, and over every chunking all are of the first kind if and only if no sequence behind an aborted OSC completes in the input |
| `TokenizerFields.AbortedOscLosesPrefix` | src/shared/terminalSequenceTokenizer.ts:257-268 | counterexample: a CSI after an aborted OSC loses its private prefix |
| `TokenizerFields.FlushedFields` | src/shared/terminalSequenceTokenizer.ts:240-255 | a flush ends every stream with at most one token, and the fields of an unfinished sequence spell what there is of it |
| `TokenizerFields.DecimalSpelled` | src/shared/terminalSequenceTokenizer.ts:276-280 | the command number of an OSC is the decimal value of its digits |
| `TokenizerMarks.PushedMarks` | src/shared/terminalSequenceTokenizer.ts:128-227 | over every chunking the tokens that are not text are, in order, kind and raw, exactly those a scan of the input without a buffer completes: a bell in ground, an escape, a control sequence at its final byte, an OSC at its BEL or backslash or unterminated at its abort, a device control at its backslash |
| `TokenizerMarks.OneTokenPerBell` | src/shared/terminalSequenceTokenizer.ts:135-139 | one execute token for each BEL met in ground, whatever the cut |
| `TokenizerMarks.FlushedMarks` | src/shared/terminalSequenceTokenizer.ts:240-255 | the sequence the input ends in becomes a token of the kind it was opened as, unterminated, or text for a lone ESC, and its raw is the end of the input |
| `BrokerSession.AgentSurfaceSession.HandleHostHello` | src/server/agentSurfaceBroker.ts:271-396 | a hello enters a new epoch or keeps the ring, reuses or replaces the producer, and becomes the current host |
| `BrokerSession.AgentSurfaceSession.BeginEpoch` | src/server/agentSurfaceBroker.ts:308-329 | another spawn empties the ring and sends every surface a fresh snapshot |
| `BrokerSession.AgentSurfaceSession.HandleHostFrame` | src/server/agentSurfaceBroker.ts:398-429 | frames of a host that is not current are dropped, others queued in order |
| `BrokerSession.AgentSurfaceSession.HandleHostEvent` | src/server/agentSurfaceBroker.ts:431-462 | one queued event up to its first await |
| `BrokerSession.AgentSurfaceSession.ResumeAfterBind` | src/server/agentSurfaceBroker.ts:458-475 | the segment after the durable bind settled |
| `BrokerSession.AgentSurfaceSession.ResumeAfterCompletion` | src/server/agentSurfaceBroker.ts:476-510 | the segment after the launch authorization settled: currency is checked again before anything is accepted |
| `BrokerSession.AgentSurfaceSession.RetainHostEvent` | src/server/agentSurfaceBroker.ts:512-529 | push, then shift until both limits hold: the ring is the longest fitting suffix |
| `BrokerSession.AgentSurfaceSession.RejectProviderIdentity` | src/server/agentSurfaceBroker.ts:531-557 | the rejected host loses its identity, its authorization and its place |
| `BrokerSession.AgentSurfaceSession.HandleHostGone` | src/server/agentSurfaceBroker.ts:559-581 | only the current host's close clears it and tells the surfaces; the ring stays |
| `BrokerSession.AgentSurfaceSession.BrowserSubscribe` | src/server/agentSurfaceBroker.ts:644-657 | a visible subscription gets a snapshot at once |
| `BrokerSession.AgentSurfaceSession.BrowserSetVisibility` | src/server/agentSurfaceBroker.ts:659-671 | becoming visible sends a snapshot |
| `BrokerSession.AgentSurfaceSession.FanEventToSurfaces` | src/server/agentSurfaceBroker.ts:811-830 | at most one frame per socket; transient events only to sockets with a visible surface |
| `BrokerSession.AgentSurfaceSession.SnapshotEverySurface` | src/server/agentSurfaceBroker.ts:322-327 | every subscribed surface of every socket gets one snapshot |
| `BrokerSession.AgentSurfaceSession.WantsEvent` | src/server/agentSurfaceBroker.ts:811-830 | whether one socket is sent an event |
| `BrokerTheorems.LongestFitSnoc` | src/server/agentSurfaceBroker.ts:512-529 | cutting after every event equals cutting once at the end |
| `BrokerTheorems.LongestFitMeaning` | src/server/agentSurfaceBroker.ts:512-529 | the cut is a suffix that fits, and no longer suffix does |
| `BrokerTheorems.StepInv` | src/server/agentSurfaceBroker.ts:431-510 | every step of every interleaving keeps the invariant |
| `BrokerTheorems.NoCrossSpawnMixing` | src/server/agentSurfaceBroker.ts:306-328 | after every run all ring events were accepted from hosts of one spawn: the generation, provider, instance and pid of the last hello |
| `BrokerTheorems.RingIsLongestSuffix` | src/server/agentSurfaceBroker.ts:512-529 | after every run the ring is the longest fitting suffix of the current spawn's accepted, non-transient, non-oversized events, with rising seq and exact byte count |
| `BrokerTheorems.ViewersAgree` | src/server/agentSurfaceBroker.ts:800-830 | after every run each visible surface on an open socket, replayed from its last snapshot, shows the ring, and no event reaches a socket twice |
| `BrokerTheorems.OnlyCurrentHostCommits` | src/server/agentSurfaceBroker.ts:436-441 | a step accepts a new event of the host current at that step, or leaves the ring alone, or is the hello of another spawn |
| `BrokerTheorems.ProviderIdentityIsStable` | src/server/agentSurfaceBroker.ts:445-488 | over every run a host's provider id, once set, is never a different one |
| `BrokerSteps.TakeNextIff` | src/server/agentSurfaceBroker.ts:436-462 | the head of the queue is accepted if and only if its host is current, its seq above lastSeq, and it is neither a session-info without an id from an identified host nor one that names a session; that one waits for its bind, or rejects a host of another identity; an accepted event is kept and sent to exactly the sockets that want it |
| `BrokerSteps.FrameIsQueued` | src/server/agentSurfaceBroker.ts:398-424 | a frame of the current host is queued behind all earlier ones, any other dropped |
| `BrokerSteps.TakeNextWaits` | src/server/agentSurfaceBroker.ts:417-423 | while an event is pending the queue hands over nothing |
| `BrokerSteps.OtherStages` | src/server/agentSurfaceBroker.ts:457-497 | a settlement of another stage than the pending one does nothing, and a settled retirement frees the queue |
| `BrokerSteps.BindOutcome` | src/server/agentSurfaceBroker.ts:457-469 | an accepted bind goes on exactly for the host that is still current; a refused one rejects the host |
| `BrokerSteps.CompletionOutcome` | src/server/agentSurfaceBroker.ts:470-510 | a completed authorization is accepted exactly for the host that is still current: host and session then carry the id, and the event is kept and sent |
| `BrokerSteps.NamingEventIff` | src/server/agentSurfaceBroker.ts:445-510 | over runs: an event that names a session its host may carry, bound and completed with any traffic in between, is accepted if and only if its host is still current, and nothing else is accepted meanwhile |
| `BrokerSteps.QueueDrains` | src/server/agentSurfaceBroker.ts:417-443 | over runs: queued ordinary events of the current host are all accepted, in order |
| `BrokerSteps.HelloOutcome` | src/server/agentSurfaceBroker.ts:301-396 | a hello: when the ring is emptied and every surface told, when the producer object is reused, and which identity the new host carries |
| `BrokerSteps.GoneOutcome` | src/server/agentSurfaceBroker.ts:559-581 | the current host's close clears it and sends each open subscribed socket one exit; another's does nothing |
| `BrokerSteps.SubscribeOutcome` | src/server/agentSurfaceBroker.ts:644-657 | subscribing sets exactly that subscription, and a visible one gets one snapshot of the ring |
| `BrokerSteps.ShowOutcome` | src/server/agentSurfaceBroker.ts:659-671 | the same for a surface that is subscribed; nothing for another |
| `BrokerSteps.UnsubscribeOutcome` | src/server/agentSurfaceBroker.ts:783-798 | unsubscribing removes exactly that subscription |
| `BrokerSteps.SocketOutcome` | src/server/agentSurfaceBroker.ts:585-619 | a new socket is greeted once, a closing one is sent nothing more, a removed client loses its subscriptions |
| `BrokerSteps.SurfacesAlwaysOnce` | src/server/agentSurfaceBroker.ts:644-671 | after every run each socket has at most one subscription for a surface |
| `SessionId.BaseCanonical` | src/shared/sessionId.ts:22-29 | the base made from any name is a valid id without dangling or doubled dash |
| `SessionId.BaseFixedIff` | src/shared/sessionId.ts:22-29 | a name is its own base if and only if it is such an id |
| `SessionId.DashedRun` | src/shared/sessionId.ts:22-24 | a run of other characters becomes one dash |
| `SessionId.DashedJoins` | src/shared/sessionId.ts:22-24 | a name falls into runs whose results are put together, which determines the slug of every name |
| `SessionId.BaseOutcome` | src/shared/sessionId.ts:22-29 | the id any name asks for: its word behind s- if it starts with no letter, before -x if it is too short, cut at 64 without a dash at the end |
| `SessionId.WordOf` | src/shared/sessionId.ts:22-26 | every name has such a word |
| `SessionId.CollapsedSlug` | src/shared/sessionId.ts:25-25 | the collapsing step finds nothing left to collapse |
| `SessionId.CandidateValid` | src/shared/sessionId.ts:31-35 | every numbered candidate is in the grammar, cut to at most 64 |
| `SessionId.CandidateInjective` | src/shared/sessionId.ts:31-35 | distinct numbers give distinct candidates, even where the base is cut |
| `SessionId.TriedOneMore` | src/shared/sessionId.ts:31-35 | the pigeonhole step: a candidate with a new number is new |
| `SessionId.MintSessionId` | src/shared/sessionId.ts:21-36 | terminates within size-plus-one attempts and returns the base if free, else the free candidate with the least number; always valid and not taken |
| `SessionId.CheckGlobalUniqueness` | src/shared/sessionId.ts:42-49 | accepts exactly lists without repetition, and otherwise names the first repeated id |
| `Ordering.StableSortCorrect` | src/core/config.ts:503-507 | the sort is increasing and keeps entries of one key in their order |
| `Ordering.ApplyOrderConserves` | src/core/config.ts:498-508 | reordering loses and duplicates nothing |
| `Ordering.ApplyOrderObeys` | src/core/config.ts:493-508 | an order that lists every item once is exactly the order that results |
| `Ordering.ApplyOrderIsStable` | src/core/config.ts:498-508 | whatever is asked for, the result is the stable sort of the items by their last listed position, else their own order, else where they stand |
| `ManifestEffects.AllIsCollected` | src/core/manifest.ts:64-79 | counting through the nesting and counting the canonical traversal agree |
| `ManifestEffects.TargetTotal` | src/core/config.ts:569-592 | an update of a target group trades exactly that group's old sessions for its new ones |
| `ManifestEffects.AddSessionGains` | src/core/config.ts:232-255 | adding gains exactly the materialized session |
| `ManifestEffects.EditSessionKeeps` | src/core/config.ts:594-637 | an edit keeps every session id and provider identity |
| `ManifestEffects.DeleteShrinks` | src/core/config.ts:357-419 | deleting projects and groups only removes sessions |
| `ManifestEffects.DeleteSessionShrinks` | src/core/config.ts:433-444 | deleting a session only removes sessions |
| `ManifestEffects.ReorderKeeps` | src/core/config.ts:510-543 | reordering keeps every session |
| `ManifestEffects.EditProjectKeeps` | src/core/config.ts:330-355 | editing a project keeps every session, up to its directory |
| `ManifestEffects.AddContainersKeep` | src/core/config.ts:257-310 | adding groups and projects touches no session |
| `ManifestTheorems.MoveTotal` | src/core/config.ts:446-473 | a move keeps every session once, or, from a project to a root group, the moved one twice |
| `ManifestTheorems.MoveConservesIff` | src/core/config.ts:446-473 | a move conserves the multiset of sessions if and only if it is not from a project to a root group, and otherwise adds exactly the moved session |
| `ManifestTheorems.DuplicateWedges` | src/core/config.ts:472-472 | after that move the file cannot be parsed, and no later operation changes it |
| `ManifestTheorems.OneSessionWedged` | src/core/config.ts:472-472 | counterexample: a sound manifest with one session and one such move |
| `ManifestTheorems.Effect` | src/core/config.ts:232-543 | what each operation does to any count of owners |
| `ManifestTheorems.StepSound` | src/core/config.ts:232-701 | every operation but that move keeps session ids valid and unique and provider identities injective |
| `ManifestTheorems.RunSound` | src/core/config.ts:200-211 | so does every run of updates without it |
| `ManifestTheorems.StaysReadableIff` | src/core/manifest.ts:164-188 | an update leaves a sound manifest readable if and only if it is not a successful move of that kind |
| `ManifestTheorems.ResumeChangesOnlyBySwap` | src/server/providerSessionBinding.ts:148-380 | a provider identity changes only by a bind that found none, or by a clear or replace that found the expected one |
| `ManifestTheorems.SetCollected` | src/server/providerSessionBinding.ts:278-289 | a rebinding changes the first session with that id in the canonical traversal and nothing else |
| `ManifestTheorems.BindThenRead` | src/server/providerSessionBinding.ts:221-298 | a successful bind is what the next read reports |
| `ManifestTheorems.ReplaceThenRead` | src/server/providerSessionBinding.ts:300-380 | a successful replacement is what the next read reports |
| `ManifestTheorems.ClearThenRead` | src/server/providerSessionBinding.ts:148-219 | after a successful clear the next read reports no identity |
| `ManifestTheorems.ReplaceOnce` | src/server/providerSessionBinding.ts:300-380 | of two replacements expecting the same identity only the first takes effect |
| `ManifestTheorems.SoundReadsNoConflict` | src/server/providerSessionBinding.ts:93-146 | in a sound manifest no read reports a conflict |
| `ManifestPlaces.ReorderProjectsLands` | src/core/config.ts:510-513 | projects end up in the order asked for when it lists each once; root groups stay |
| `ManifestPlaces.ReorderGroupsLands` | src/core/config.ts:520-530 | the groups of the place named end up in the order asked for when it lists each once; those of every other place stay |
| `ManifestPlaces.ReorderSessionsLands` | src/core/config.ts:539-543 | the sessions of the group named end up in the order asked for when it lists each once; every other group stays |
| `ManifestPlaces.PlaceUpdated` | src/core/config.ts:569-592 | replacing the first group with an id changes what that id leads to there, and nothing else |
| `ManifestPlaces.UpdateLands` | src/core/config.ts:569-592 | an update changes exactly the group it names: in the project with that id, else among the root groups |
| `ManifestPlaces.AddLands` | src/core/config.ts:312-328 | an added session comes last in the group it names; every other group stays |
| `ManifestPlaces.EditLands` | src/core/config.ts:594-637 | an edit gives the sessions it names the draft's fields under their own identities, needs one of them, and changes nothing else |
| `ManifestPlaces.DeleteLands` | src/core/config.ts:433-444 | a deletion removes exactly the sessions it names and changes no other group |
| `ManifestPlaces.RemoveLands` | src/core/config.ts:639-657 | the first session the options name is taken out of its group, every other group stays |
| `ManifestPlaces.MoveLands` | src/core/config.ts:446-473 | a moved session comes last in the target group, which had none of its name, with its own directory or the one it was launched in |
| `ManifestOutcomes.AddContainerOutcome` | src/core/config.ts:257-310 | a group or project is added, empty and last, exactly when none there has its id |
| `ManifestOutcomes.EditProjectOutcome` | src/core/config.ts:330-355 | editing a project sets title and directory; without one, exactly the root sessions of the old directory move, and there must be one |
| `ManifestOutcomes.DeleteProjectOutcome` | src/core/config.ts:357-388 | deleting a project leaves exactly the projects with other ids; without one, exactly the root sessions of its directory go, with the groups this empties |
| `ManifestOutcomes.DeleteGroupOutcome` | src/core/config.ts:399-419 | deleting a group leaves exactly the groups with other ids there, or, by directory, exactly the other sessions |
| `ManifestOutcomes.EditGroupOutcome` | src/core/config.ts:390-397 | editing sets id, title and layout, resizing the layout only |
| `ManifestOutcomes.MaterializeOutcome` | src/core/config.ts:676-712 | a draft with a provider identity is refused exactly without a provider, with an invalid id, or with one already bound |
| `ManifestOutcomes.AddSessionOutcome` | src/core/config.ts:232-255 | adding to a root group, created last if there is none: the name must be free and the draft acceptable |
| `ManifestOutcomes.AddSessionToProjectOutcome` | src/core/config.ts:312-328 | the same in a project, both of whose parts must exist |
| `ManifestOutcomes.EditSessionOutcome` | src/core/config.ts:421-431 | the sessions meant all take the draft under their own identities, or the first refusal is the error, or there is none |
| `ManifestOutcomes.EditAllOutcome` | src/core/config.ts:601-637 | a list is edited as a whole, or the first session that is meant and refuses decides the error |
| `ManifestOutcomes.DeleteSessionOutcome` | src/core/config.ts:433-444 | deleting leaves exactly the sessions that are not meant, in order |
| `ManifestOutcomes.RemoveOutcome` | src/core/config.ts:639-657 | a move takes out the first session its source means, or says what is missing |
| `ManifestOutcomes.LaunchCwdIsFirstFit` | src/core/config.ts:659-667 | the directory a move falls back to is that of the first launch specification that fits its source |
| `ManifestOutcomes.MoveOutcome` | src/core/config.ts:446-479 | a move in full: each refusal, the place of arrival, and the old projects written back for a target at the root |
| `ManifestOutcomes.ReorderOutcome` | src/core/config.ts:510-543 | reordering writes the sorted list where the old one was, and nothing else |
| `ManifestOutcomes.LensesExpose` | src/core/config.ts:510-543 | sessions are ordered by name, groups and projects by id |
| `ManifestOutcomes.GroupsOfPlace` | src/core/config.ts:569-592 | a project id leads to the groups of the first such project, else to the root groups |
| `ManifestOutcomes.BindOutcome` | src/server/providerSessionBinding.ts:221-298 | each result of persisting an identity has its exact condition, and only a persisted one is written, to the first session with the id |
| `ManifestOutcomes.ClearOutcome` | src/server/providerSessionBinding.ts:148-219 | the same for clearing |
| `ManifestOutcomes.ReplaceIdentityOutcome` | src/server/providerSessionBinding.ts:300-380 | the same for replacing |
| `ManifestOutcomes.ReadOutcome` | src/server/providerSessionBinding.ts:93-146 | reading reports the first session's provider and identity unless one of four checks fails |
| `ManifestFile.File.ReadCheck` | src/core/manifest.ts:164-188 | the file parses exactly when its session ids are valid and unique |
| `ManifestFile.File.UpdateManifestFile` | src/core/config.ts:200-211 | an unreadable file or a failed operation leaves the file as it is |
| `ManifestFile.File.ConflictingOwner` | src/server/providerSessionBinding.ts:254-265 | finds another holder exactly when there is one |
| `ManifestFile.File.BindProviderSessionIdentity` | src/server/providerSessionBinding.ts:221-298 | result and file are those of the bind transaction, in the source's order of checks |
| `ManifestFile.File.ClearProviderSessionIdentity` | src/server/providerSessionBinding.ts:148-219 | result and file are those of the clear transaction |
| `ManifestFile.File.ReplaceProviderSessionIdentity` | src/server/providerSessionBinding.ts:300-380 | result and file are those of the compare-and-swap |
| `Evidence.InspectBoundedJsonl` | src/server/providerSessionEvidence.ts:1104-1174 | the byte loop returns what splitting into lines and looking at them in order gives |
| `Evidence.SplitJoins` | src/server/providerSessionEvidence.ts:1143-1150 | splitting loses nothing and leaves no newline in a line |
| `Evidence.FirstVerdictMeaning` | src/server/providerSessionEvidence.ts:1111-1150 | the verdict is that of the first line that is past the cap, empty, oversized, unparsable or eligible |
| `Evidence.ScanOutcome` | src/server/providerSessionEvidence.ts:1104-1174 | what a scan says: behind the records passed over, the next one decides by its number, its length and what it is; without one, mismatch, or exhausted when truncated, or oversized for a long fragment |
| `Evidence.LinesPassed` | src/server/providerSessionEvidence.ts:1143-1150 | up to the 64th either every line is passed over or one is the first that is not |
| `Evidence.SplitExtends` | src/server/providerSessionEvidence.ts:1143-1150 | appended bytes keep the complete lines and continue the unfinished one |
| `Evidence.DecidedIsFinal` | src/server/providerSessionEvidence.ts:1143-1150 | a verdict at a newline-terminated line survives every extension, truncated or not |
| `Evidence.TruncatedVerdicts` | src/server/providerSessionEvidence.ts:1151-1174 | a truncated scan never reports a mismatch and accepts only at a complete line |
| `Evidence.TruncatedAgreesIff` | src/server/providerSessionEvidence.ts:1151-1174 | a truncated verdict other than exhausted is that of the whole file if and only if it is not an oversized fragment behind the last allowed record |
| `Evidence.PastCapExhausts` | src/server/providerSessionEvidence.ts:1151-1174 | in that case the whole file, however it goes on, exhausts the record cap while the truncated scan says oversized |
| `Evidence.PastCapExample` | src/server/providerSessionEvidence.ts:1152-1157 | such an input: a full prefix of 262144 bytes with sixty-four records and one long fragment |
| `Evidence.CollateIsValue` | src/server/providerSessionEvidence.ts:128-137 | names of one length collate as their numbers |
| `Evidence.CollateZeros` | src/server/providerSessionEvidence.ts:128-137 | two spellings of one number compare by length, the other way round for zero |
| `Evidence.ComparesNumbers` | src/server/providerSessionEvidence.ts:128-137 | the comparison is the newest-first order of the numbers, and zero only between equal names |
| `Hooks.MergeHookGroups` | src/core/agentHooks.ts:835-861 | the loops compute the merge of one event |
| `Hooks.PruneDeskHooks` | src/core/agentHooks.ts:786-804 | the loop computes the pruning of one event |
| `Hooks.MergeEvents` | src/core/agentHooks.ts:738-759 | wanted events merged, every other one pruned or dropped |
| `Hooks.ConfigFile.MergeHookConfigLocked` | src/core/agentHooks.ts:714-777 | a malformed file is left alone; otherwise hooks, settings and all other keys are the merged ones |
| `HooksTheorems.WantedInstalled` | src/core/agentHooks.ts:845-859 | every wanted hook is in the first group with its matcher |
| `HooksTheorems.MergeLeavesNoneStale` | src/core/agentHooks.ts:814-843 | no stale Desk hook is left in any group |
| `HooksTheorems.MergeTwice` | src/core/agentHooks.ts:835-861 | merging one event twice equals merging it once |
| `HooksTheorems.MergeKeepsOperator` | src/core/agentHooks.ts:835-861 | every group of an array stays where it was with its other fields and exactly its operator hooks in order; added groups hold none |
| `HooksTheorems.MergeLosesIff` | src/core/agentHooks.ts:835-868 | a value that is no array is dropped as a whole; of an array exactly the groups that are no object, or whose hooks field is no array, lose something |
| `HooksTheorems.StringDropped` | src/core/agentHooks.ts:840-844 | counterexample: a string as an event's value |
| `HooksTheorems.PruneGroupsCorrect` | src/core/agentHooks.ts:786-804 | pruning keeps the operator hooks in order, leaves no Desk hook, and does nothing a second time |
| `HooksTheorems.FileLeavesNoneStale` | src/core/agentHooks.ts:738-759 | the same for every event of the file |
| `HooksTheorems.DroppedEventWasDesks` | src/core/agentHooks.ts:749-759 | an event disappears only if Desk does not want it and the operator has nothing in it |
| `HooksTheorems.OperatorSettingsWin` | src/core/agentHooks.ts:769-775 | operator settings win, Desk's fill the gaps, no other key changes |
| `HooksTheorems.MergeIdempotent` | src/core/agentHooks.ts:714-777 | installing twice equals installing once, for the whole file |
| `HooksOutcomes.StaleIff` | src/core/agentHooks.ts:814-833 | a hook is stale exactly when its command contains the shim's name but not its path, or it is none of the wanted ones |
| `HooksOutcomes.SameHookIff` | src/core/agentHooks.ts:870-877 | a hook is the wanted one exactly with the same type, command and timeout |
| `HooksOutcomes.MatcherOutcome` | src/core/agentHooks.ts:846-847 | the matcher of a group: none and null read as empty, a text as itself, any other value as its text |
| `HooksOutcomes.HandlerOutcome` | src/core/agentHooks.ts:853-857 | a hook as Desk writes it, with a timeout only if there is one |
| `HooksOutcomes.SelectOne` | src/core/agentHooks.ts:841-844 | a filter decides on each hook by itself |
| `HooksOutcomes.StartOutcome` | src/core/agentHooks.ts:840-844 | each existing value becomes a group with its other fields and those of its hooks that are not stale |
| `HooksOutcomes.AddMissingLast` | src/core/agentHooks.ts:853-857 | a wanted hook is appended exactly when the same one is not there |
| `HooksOutcomes.AddGroupOutcome` | src/core/agentHooks.ts:845-859 | the first group with the matcher gets what it misses and keeps the rest; without one, a group of exactly the wanted hooks comes last |
| `HooksOutcomes.PruneGroupsLast` | src/core/agentHooks.ts:786-804 | pruning keeps a group without a list of hooks as it is, and of any other its other fields with the operator's hooks, unless none is left |
| `HooksOutcomes.FileOutcome` | src/core/agentHooks.ts:714-777 | a malformed file stays, a missing one is made from nothing, and of every key of the merged file its value |
| `HooksOutcomes.EventsOutcome` | src/core/agentHooks.ts:738-759 | an event is merged if wanted, else pruned, and goes if nothing is left of it |

## Left out

- executeClaudeProfileHandoff, prepareClaudeSessionStart and the activation records: the order in which a launch calls the modelled transactions is not part of this model.
- Unsafe or unknown files in a session envelope, and malformed control records: their refusals are single checks before any write.
- Real file systems, fsync, file locks, hashes, UUIDs and JSON or YAML text: atomic steps, mutual exclusion, fresh ids and opaque contents stand for them.
- HandoffStore.SessionStore.ReplaceWithHardlink: the temporary link and its rename are one step, so a temporary name left by a crash is not modelled.
- HandoffStore.SessionStore.RemoveBackups: backups go one by one in plan order, while a recursive removal may choose any order.
- HandoffStore.SessionStore.PrepareClaudeSessionHandoff: the refusals of unsafe or unknown files in a session envelope and of malformed control records are not part of it.
- HandoffStore.SessionStore.ConfirmClaudeSessionStart: the activation record it reads and writes, its checks and the conflict report are not part of this model, only the removal of source links.
- HandoffRuns.VisitedRollbackIff: another handoff of the same session between a handoff and its rollback is not among the visits; `HandoffGuards.LateUndoRefused` proves that the rollback then refuses.
- MemorySync.MemoryStore.ApplySnapshot: creating and filling a temporary file is one step; a crash before the name exists leaves nothing.
- MemorySync.MemoryStore.SynchronizeLocked: conflict records and state.json are reduced to the set of conflicts, and files beyond the byte caps are given as unsafe paths, which writing is assumed not to change.
- TokenizerFields.PushedFields: parseInt on OSC numbers above two to the power 53 rounds; the model keeps the exact number.
- Broker commands, permissions, inflight timeouts, publishing of observations, tokens, idle times and disposal of sessions: routing around the modelled ring and identities.
- BrokerSession.AgentSurfaceSession.HandleHostHello: malformed, unauthenticated and unsupported hellos, which close the socket before the session is touched, are not modelled.
- SessionId.MintSessionId: Unicode lower-casing happens before the model, which starts from the lowered name.
- ManifestFile.File.ReadCheck: only the identity checks of the parser; its structural and profile checks can refuse more.
- DeskManifest.ReorderSessions and its siblings: orders are integers; a fractional or non-numeric order is not modelled.
- Evidence.InspectBoundedJsonl: opening files, directory identities and the scan of directories rest on the operating system.
- Hooks.ConfigFile.MergeHookConfigLocked: key order and formatting of the written JSON, and event names that are inherited property names of JavaScript objects, are not modelled.
- Launch and continuity ledgers, HTTP routes, command builders, frame validators, liveness verdicts, the Kimi hook block and the user interface: I/O, text assembly or single-branch checks that would only add easy members.

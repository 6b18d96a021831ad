# minecraft-backuproll, modelled in Dafny

This project models the backup store and retention roll of `minecraft-backuproll`, the tool
that snapshots Minecraft worlds with rsync and thins the snapshots out over time. It covers
both generations of the tool:

- **The store** (`store.dfy`, module `BackupStore`). A `BackupStore` directory holds one
  *collection* per world. A collection holds *retain groups* (`recent`, `daily`, `weekly`,
  `monthly`, `pre-update`, `reverted`). A group holds backup directories named
  `<prefix><timestamp><suffix>`, and a backup still being written carries the `.in-progress`
  mark. The file system is a `Store` class whose `collections` field maps each world to a
  `CollectionDir` value. A `CollectionDir` holds the entries of every group, in listing order,
  and the `latest` links. Listing, parsing, creating, finalizing and deleting a backup are
  functions on those values, plus methods of `Store` that change its `collections`.
- **The rotation policy** (`policy.dfy`, `rotation.dfy`). `policy.dfy` holds the selection
  rules the two generations share, stated on sequences of timestamps:
  - daily: the last backup before 13:00 of the day, else the first of the day;
  - weekly: the first backup of the ISO week number;
  - monthly: the first backup of the month.

  `rotation.dfy` holds the core `BackupRotation`: the next retain group, whether to promote,
  which backup to promote, the copy into the next group, the deletion list and the cleanup.
  It has a spec function for each step and a `Rotation` class whose methods are proved against
  them.
- **Synchronisation and the runner** (`sync.dfy`, `runner.dfy`). `RsyncBackupCommand` creates
  an in-progress backup, rsyncs into it with `--link-dest` to the latest backup, then
  finalizes it and points the `latest` links at it. `MinecraftBackupRunner` wraps this in the
  pre-, post- and fail-hooks and runs cleanup, backup, rotation and restore over worlds.
  - Processes are a `Processes` object. It records every invocation in a trace and returns
    the exit code that the `exitOf` parameter assigns to it.
- **The lock** (`roll.dfy`). `MinecraftBackupRoll` guards an activity with a pid file. The
  file's content is parsed with Python's `int()`, and a live holder is detected with
  `os.kill(pid, 0)`, which the model takes as a probe function.
- **The legacy script** (`legacy.dfy`). `backuproll.py` applies the same policy to single
  archive files. It uses a `recent` directory plus `daily`, `weekly` and `monthly`
  subdirectories, hard links for promotion, `os.remove` for eviction, and a shell backup
  command per world. The disk is a `Disk` class whose `files` field maps a directory to its
  file names.

Shared pieces:

- `calendar.dfy`: dates and the timestamp order.
- `seqs.dfy`: Python's slicing, `Filter` (a list comprehension) and the sort by timestamp.
- `wrappers.dfy`: `Option`, `Result` and `Outcome`. `Outcome` is "returned normally" or
  "raised this error".

Behaviours kept exactly as the code has them, where a reader might expect otherwise:

- **Malformed names.** Listing a group that holds a matching directory whose name does not
  parse is an error (`Err(MalformedName)`); the code crashes in `strptime`. It does not skip
  the entry.
- **Finalize.** Finalizing leaves the in-progress flag set, so a second finalize of the same
  value renames the directory onto itself and succeeds.
- **Stale pid file.** A stale pid file (its process is gone) is never removed, so the lock
  can never be taken again until someone deletes it.
- **Readonly stores.** A readonly store still creates a missing retain-group directory. Only
  `get_collection` and the write operations refuse.
- **Simulate mode.** A simulated backup run still creates its in-progress directory
  (`Sync.BlockingSimulate`); only rsync, the finalize and the `latest` links are skipped.
- **Skipped tiers.** When the next tier is disabled, `get_next_retain_group` skips only one
  tier and resets the chain to `daily`. `NextGroupVersusIntended` names the plans where this
  differs from "the next enabled tier".

The model keeps these behaviours of the code:

- Keep 0 deletes nothing (`x[:-0]` is empty).
- Week and month matching compare only the week number or the month, not the year.
- The legacy daily guard waits until 13:00, where the core promotes from 12:00.
- The legacy script promotes weekly and monthly backups from the `daily` directory.
- With an empty suffix, the legacy date slice `filename[len(prefix):-0]` is empty.
- Promotion is not idempotent across noon: a pass before 12:00 defers `recent`, and a second pass at
  12:00 or after on the same day can still promote it (`NoonSplitsTheDay`).

## Model

| member | source | states |
|---|---|---|
| Calendar.NoLaterTransitive | backuproll/core.py:229-230 | the timestamp order that `sorted_backups` sorts by is transitive |
| Calendar.NoLaterTotal | backuproll/core.py:229-230 | any two timestamps are comparable, so the sort order is total |
| Seqs.ClampIndex | backuproll.py:144 | a Python slice bound is clamped into `0..len`; a negative bound counts from the end |
| Seqs.DropNewestPrefix | backuproll/core.py:382-388 | `bs[:-keep]` is empty for keep 0 and otherwise all but the newest `keep` entries |
| Seqs.FilterMeaning | backuproll/core.py:241-245 | a comprehension keeps exactly the members that satisfy its condition |
| Seqs.FilterAppend | backuproll/core.py:241-245 | filtering distributes over concatenation |
| Seqs.FilterCongruent | backuproll/core.py:241-245 | two conditions that agree on every element filter alike |
| Seqs.FilterMultiset | backuproll/core.py:241-245 | a comprehension never invents or duplicates elements |
| Seqs.FilterSorted | backuproll/core.py:241-245 | filtering a sorted listing keeps it sorted |
| Seqs.InsertBy | backuproll/core.py:229-230 | insertion adds exactly the one element to the multiset |
| Seqs.InsertBySorted | backuproll/core.py:229-230 | insertion into a sorted list keeps it sorted |
| Seqs.SortByMeaning | backuproll/core.py:229-230 | `sorted(..., key=datetime)` is a permutation of its input and is ordered by timestamp |
| Policy.FirstWhere | backuproll/core.py:351-364 | the index of the first element that satisfies the test; no earlier element does; none when no element does |
| Policy.LastWhere | backuproll/core.py:343-350 | the index of the last element that satisfies the test; no later element does |
| Policy.FirstWhereUnique | backuproll/core.py:351-364 | the first satisfying index is uniquely determined |
| Policy.LastWhereUnique | backuproll/core.py:343-350 | the last satisfying index is uniquely determined |
| Policy.DailyPickMeaning | backuproll/core.py:343-350 | a daily pick exists iff some backup is on the date; it is the last one before 13:00 when any is, else the first of the day |
| Policy.SelectDaily | backuproll.py:88-98 | the selection loop (the first of the day, replaced by each one before 13:00) computes the daily pick |
| Policy.DailyPickExtend | backuproll.py:88-98 | how the daily pick changes when one more backup is appended |
| Policy.DailyPickExamples | backuproll/core.py:343-350 | 09:00, 12:30 and 14:00 on the day pick 12:30; a lone 14:00 backup is picked |
| Policy.PeriodPickMeaning | backuproll/core.py:351-364 | weekly and monthly picks exist iff a backup of the week number or month exists, and are the first such backup |
| Policy.PeriodPickIgnoresYear | backuproll/core.py:351-364 | a backup from the same month or ISO week number of the previous year matches |
| BackupStore.TierNamed | backuproll/core.py:268-272 | only the six retain-group names are accepted, and each maps back to its name |
| BackupStore.ParseComposedName | backuproll/core.py:217-222 | a name composed as prefix + timestamp text + suffix parses as the timestamp text does |
| BackupStore.ParseName | backuproll/core.py:99 | `strptime` of a directory name: the literal prefix and suffix, and the timestamp text between them parsed by the date format (its round trip with `ComposeName` is `ParseComposedName`) |
| BackupStore.ComposeName | backuproll/core.py:217-222 | the name of a new backup: prefix, timestamp text, suffix (read back by `ParseComposedName`) |
| BackupStore.EnsureGroup | backuproll/core.py:173-177 | opening a retain group creates its directory and changes no listing |
| BackupStore.EnsureGroups | backuproll/core.py:254-266 | opening a writable collection creates every retain group and changes no listing |
| BackupStore.ListedEntriesMeaning | backuproll/core.py:232-235 | exactly the directory entries with the group's prefix and suffix are considered |
| BackupStore.GetBackup | backuproll/core.py:190-198 | a parsed backup belongs to the group and entry it was read from; it is in progress iff the entry ends in `.in-progress`; the mark is stripped from its name |
| BackupStore.GetBackupOfDirName | backuproll/core.py:84-99 | the backup read from an in-progress or finished directory has the parsed timestamp and the right flag |
| BackupStore.LookupBackup | backuproll/core.py:190-193 | a name not in the group yields no backup |
| BackupStore.ParseAll | backuproll/core.py:232-239 | listing succeeds iff every considered entry parses, and the i-th backup is the i-th entry's |
| BackupStore.ParseAllAppend | backuproll/core.py:232-239 | parsing one more entry appends its backup |
| BackupStore.ListAllBackups | backuproll/core.py:232-239 | every entry with the prefix and suffix as a backup, sorted by timestamp; an unparseable one raises (stated by `ListAllOk`, `ListAllMember`, `ListAllComplete`) |
| BackupStore.ListBackups | backuproll/core.py:244-245 | the finished backups of the full listing, in its order (stated by `ListBackupsMeaning`) |
| BackupStore.ListInProgress | backuproll/core.py:241-242 | the in-progress backups of the full listing, in its order (stated by `ListBackupsMeaning`) |
| BackupStore.ListAllOk | backuproll/core.py:232-239 | listing fails exactly when some considered entry does not parse |
| BackupStore.ListAllMember | backuproll/core.py:232-239 | every listed backup comes from a considered entry of that group |
| BackupStore.ListAllComplete | backuproll/core.py:232-239 | every considered entry is listed |
| BackupStore.ListBackupsMeaning | backuproll/core.py:241-245 | finished and in-progress listings are sorted by timestamp and split the full listing by the in-progress flag |
| BackupStore.LatestBackup | backuproll/core.py:247-251 | the latest backup exists iff the finished listing is non-empty |
| BackupStore.LatestIsNewest | backuproll/core.py:247-251 | the latest backup is a finished listed backup no older than any other |
| BackupStore.LastIsNewest | backuproll/core.py:249-250 | the last element of a timestamp-sorted listing is the newest |
| BackupStore.DeleteOutcome | backuproll/core.py:115-118 | deleting succeeds iff the backup is writable and its directory exists |
| BackupStore.Store.constructor | backuproll/core.py:282-285 | a store over the given directory, date format, readonly flag and existing collections |
| BackupStore.Store.GetCollection | backuproll/core.py:287-294 | a missing collection is refused when readonly; a writable store creates it with all retain groups |
| BackupStore.Store.GetRetainGroup | backuproll/core.py:268-272 | an invalid name raises; a valid one creates its directory, even when readonly |
| BackupStore.Store.NewBackupNamed | backuproll/core.py:217-222 | a readonly store refuses; otherwise the in-progress directory exists afterwards and the backup's timestamp is the parsed name |
| BackupStore.Store.Finalize | backuproll/core.py:105-113 | readonly and finished backups are refused; otherwise the directory is renamed to the plain name, failing if it is missing or the target exists; the in-progress flag stays set |
| BackupStore.Store.Delete | backuproll/core.py:115-118 | removes exactly the backup's entry, and only when the backup is writable and present |
| BackupStore.Store.SetLatestLinks | backuproll/core.py:469-476 | the group's and the collection's `latest` links point at the new backup |
| Rotation.NextGroup | backuproll/core.py:312-327 | a next group is an enabled retention tier above the current one |
| Rotation.NextGroupTable | backuproll/core.py:312-327 | recent goes to daily, else weekly; daily to weekly; weekly to monthly; each only when that tier keeps backups |
| Rotation.NextGroupVersusIntended | backuproll/core.py:318-327 | differs from "the next enabled tier" exactly when monthly is the only enabled tier above |
| Rotation.BackupsForDate | backuproll/core.py:200-209 | the backups in the date's period; a group without a period raises |
| Rotation.SelectPromotionFails | backuproll/core.py:329-369 | selection raises iff the source listing fails or the target is not daily, weekly or monthly |
| Rotation.SelectPromotion | backuproll/core.py:329-369 | lists the source group and applies the target's rule: the daily, weekly or monthly pick (stated by `SelectPromotionFails`, `SelectPromotionFound`, `SelectPromotionNone`) |
| Rotation.SelectPromotionFound | backuproll/core.py:329-364 | a selected backup is a finished backup of the source group in the target period |
| Rotation.SelectPromotionNone | backuproll/core.py:338-365 | nothing is selected only when no source backup lies in the target period |
| Rotation.ShouldPromote | backuproll/core.py:371-380 | promotion is due only when a next group exists |
| Rotation.ShouldPromoteMeaning | backuproll/core.py:371-380 | not before 12:00 on the day from recent, never without a next group, else iff the next group keeps backups and has none for the period |
| Rotation.CopyInto | backuproll/core.py:390-402 | the copy succeeds iff the name is new in the target group, then appends it there, links `latest` to it and leaves other groups alone |
| Rotation.PromoteSimulateChangesNothing | backuproll/core.py:394-402 | a simulated promotion pass changes no group |
| Rotation.PromoteStep | backuproll/core.py:407-417 | one source group of the promotion loop: the guard, the selection, then the copy unless simulating or nothing was selected (stated by `PromoteStepGrows` and `PromoteStepStable`) |
| Rotation.PromotePass | backuproll/core.py:404-417 | the loop over the remaining source groups, each step seeing the previous ones' copies, stopping at the first error (stated by `PromotePassFrame` and `PromotePassStable`) |
| Rotation.PromoteAll | backuproll/core.py:404-417 | the loop over recent, daily, weekly and monthly in order (stated by `PromoteIdempotent` and `NoonSplitsTheDay`) |
| Rotation.GrownListing | backuproll/core.py:404-417 | promotion only adds backups, so every listed backup stays listed |
| Rotation.PromoteStepGrows | backuproll/core.py:404-417 | a promotion step only appends to the next group the directory of a backup that lists; every other group keeps its entries |
| Rotation.FilledPeriodBlocks | backuproll/core.py:371-380 | a next group that already lists a backup of the period refuses promotion |
| Rotation.PromotedIsListed | backuproll/core.py:390-402 | a backup copied into the next group is listed there, with its timestamp |
| Rotation.CopiedFillsPeriod | backuproll/core.py:371-402 | after the selected backup was copied into the next group, promotion into it is refused on any state grown from that copy |
| Rotation.PromoteStepStable | backuproll/core.py:404-417 | after a tier's promotion step, repeating the step changes nothing |
| Rotation.PromotePassFrame | backuproll/core.py:404-417 | a pass from tier j on only grows groups and leaves tiers up to j unchanged |
| Rotation.StepAtRerun | backuproll/core.py:371-380 | later the same day a step is the same step, except that a rerun before 12:00 defers `recent` and changes nothing |
| Rotation.PromotePassStable | backuproll/core.py:404-417 | a completed pass is a fixpoint of the same pass, run at the same instant or at a rerun later the same day |
| Rotation.PromoteIdempotent | backuproll/core.py:404-417 | a second promotion pass changes nothing, at the same instant or later the same day unless the first ran before 12:00 and the second at 12:00 or after |
| Rotation.NoonListing | backuproll/core.py:232-245 | in the noon example, `recent` lists the one 09:00 backup and `daily` lists nothing |
| Rotation.NoonMorning | backuproll/core.py:371-380 | in the noon example, a pass at 11:00 defers `recent` and changes nothing |
| Rotation.NoonAfternoon | backuproll/core.py:371-402 | in the noon example, the `recent` step at 13:00 copies the backup into `daily` |
| Rotation.NoonSplitsTheDay | backuproll/core.py:371-417 | a pass at 11:00 changes nothing, while a pass at 13:00 the same day changes the collection, so a rerun must not cross noon |
| Rotation.EvictionSlice | backuproll/core.py:382-388 | eviction removes the oldest backups and keeps the newest `keep`, all no older than any removed one |
| Rotation.DeletionFromMeaning | backuproll/core.py:382-388 | every backup listed for deletion is a finished backup listed in its own group |
| Rotation.DeletionList | backuproll/core.py:382-388 | the deletion list over recent, daily, weekly and monthly (stated by `DeletionListContents`) |
| Rotation.DeletionListContents | backuproll/core.py:382-388 | the deletion list is recent, daily, weekly and monthly, each minus its newest `keep` |
| Rotation.DeleteAllMeaning | backuproll/core.py:419-425 | deleting a list removes exactly its entries; a readonly backup stops it with the readonly error |
| Rotation.DeleteAll | backuproll/core.py:421-425 | `Backup.delete` of each backup in turn, stopping at the first error (stated by `DeleteAllMeaning`) |
| Rotation.CleanupSpec | backuproll/core.py:419-425 | deletes the deletion list unless simulating; a listing error raises (stated by `CleanupMeaning`) |
| Rotation.CleanupMeaning | backuproll/core.py:419-425 | simulate keeps everything; listing errors and readonly stores raise; otherwise exactly the deletion list is removed |
| Rotation.RotateComposes | backuproll/core.py:585-594 | rotation is promotion followed, when it passes, by cleanup |
| Rotation.RotateCollection | backuproll/core.py:592-594 | promotion, then cleanup unless promotion raised (stated by `RotateComposes`) |
| Rotation.Rotation.constructor | backuproll/core.py:303-310 | a rotation over the given store, world, plan, simulate flag and week numbering |
| Rotation.Rotation.ListBackupsToDelete | backuproll/core.py:382-388 | computes the deletion list of the collection |
| Rotation.Rotation.SelectPromotionBackup | backuproll/core.py:329-369 | computes the promotion selection of the collection |
| Rotation.Rotation.PromoteBackupToRetainGroup | backuproll/core.py:390-402 | simulate changes nothing; otherwise the collection becomes the copy's result, or nothing changes and the error is raised |
| Rotation.Rotation.PromoteFrom | backuproll/core.py:404-417 | one tier's promotion step, changing only this world |
| Rotation.Rotation.PromoteBackups | backuproll/core.py:404-417 | the whole promotion pass, changing only this world |
| Rotation.Rotation.CleanupBackups | backuproll/core.py:419-425 | the cleanup of this world's collection |
| Rotation.Rotation.DeleteBackups | backuproll/core.py:421-425 | the deletion loop, stopping at the first error |
| Rotation.Rotation.Rotate | backuproll/core.py:585-594 | promotion then cleanup of this world |
| Sync.Processes.constructor | backuproll/core.py:441-448 | no process has been started yet |
| Sync.Processes.Call | backuproll/core.py:441-448 | starting a process records it and returns its exit code |
| Sync.LinkDestIffLatest | backuproll/core.py:452-463 | the rsync arguments hold a `--link-dest` iff there is a latest backup; source and destination come last |
| Sync.BackupArgv | backuproll/core.py:452-463 | the rsync flags, a `--link-dest` to the latest backup when there is one, then source and destination (stated by `LinkDestIffLatest`) |
| Sync.BlockingRun | backuproll/core.py:451-480 | the latest lookup, the new in-progress backup, rsync, then finalize and the `latest` links on exit 0 (stated by `BlockingSimulate`, `BlockingRunCreated`, `BlockingSuccess`, `BlockingFailure`) |
| Sync.CreatedRun | backuproll/core.py:465-480 | the rsync, finalize and link update once the in-progress backup exists (stated by `BlockingSuccess` and `BlockingFailure`) |
| Sync.BlockingSimulate | backuproll/core.py:451-480 | simulate starts no process and succeeds iff the latest lookup, the writable store and the name allow it; the in-progress directory exists afterwards |
| Sync.RenameRemoves | backuproll/core.py:105-113 | a rename removes the old entry, provides the new one and touches no other group |
| Sync.BlockingRunCreated | backuproll/core.py:451-463 | a run that does not raise found the latest backup, a writable store, a parseable name and the in-progress directory |
| Sync.BlockingSuccess | backuproll/core.py:451-480 | a successful run started one rsync that exited 0, left a finished backup and pointed both `latest` links at it |
| Sync.BlockingFailure | backuproll/core.py:465-478 | a failed rsync leaves the in-progress backup and the `latest` links as they were |
| Sync.RestorePathsAgree | backuproll/core.py:483-493 | restore rsyncs from the backup's world directory (or its subdirectory) to the source |
| Sync.RestoreArgv | backuproll/core.py:483-490 | the rsync flags, then the backup's world directory (or its subdirectory) and the source (stated by `RestorePathsAgree`) |
| Sync.RsyncCommand.constructor | backuproll/core.py:432-439 | the command's source, group, simulate flag and rsync flags |
| Sync.RsyncCommand.RunRsync | backuproll/core.py:441-448 | simulate starts nothing and reports 0; otherwise one rsync is started and its exit code returned |
| Sync.RsyncCommand.RunBlocking | backuproll/core.py:451-480 | the store and the trace change as the blocking run specifies, and its result is returned |
| Sync.RsyncCommand.FinishBlocking | backuproll/core.py:463-480 | the rsync, the finalize and the link update after the in-progress backup exists |
| Sync.RsyncCommand.RunRestore | backuproll/core.py:483-493 | simulate succeeds without a process; otherwise one rsync, whose exit code decides success |
| Runner.FormatCommandPlain | backuproll/core.py:517-518 | a command without `{` is unchanged by formatting |
| Runner.FormatCommand | backuproll/core.py:517-518 | `command.format(world=...)` with `{world}` the one field (stated by `FormatCommandPlain` and `FormatCommandField`) |
| Runner.FormatCommandField | backuproll/core.py:517-518 | `{world}` is replaced by the world name |
| Runner.CleanupGroupsStep | backuproll/core.py:520-527 | cleaning groups is one group, then the rest unless it raised |
| Runner.CleanupWorldSpecOpened | backuproll/core.py:520-527 | cleanup opens the collection and cleans each retain group present |
| Runner.CleanupWorldSpec | backuproll/core.py:520-527 | opens the collection and removes the in-progress backups of each retain group (stated by `CleanupWorldSpecOpened` and `CleanupGroupsMeaning`) |
| Runner.CleanupGroupStep | backuproll/core.py:524-527 | cleaning a group removes exactly its in-progress entries |
| Runner.CleanupGroupsMeaning | backuproll/core.py:520-527 | simulate changes nothing; otherwise every cleaned group loses exactly its in-progress entries and the others are unchanged |
| Runner.BackupHookOrder | backuproll/core.py:536-579 | success ran pre-hook, rsync and post-hook in order, all exiting 0; failure ran a prefix of that, then the fail-hook; simulate runs nothing |
| Runner.BackupWorldRun | backuproll/core.py:545-579 | the pre-hook, rsync into `recent`, the post-hook, and the fail-hook on any failure (stated by `BackupHookOrder` and `BackupSyncFailure`) |
| Runner.BackupWorldSpec | backuproll/core.py:536-579 | opens the collection and its `recent` group, then runs the `try` block (stated by `BackupHookOrder`) |
| Runner.BackupSyncFailure | backuproll/core.py:555-578 | a failed rsync raises, runs the fail-hook and leaves the in-progress backup |
| Runner.RotateWorldMeaning | backuproll/core.py:585-594 | rotation starts no process, skips a world without a keep plan and leaves other worlds alone |
| Runner.RotateWorldSpec | backuproll/core.py:587-594 | nothing without a keep plan; otherwise promotion then cleanup of the opened collection (stated by `RotateWorldMeaning` and `RotateComposes`) |
| Runner.ForEachWorldStep | backuproll/core.py:529-531 | the loop over worlds is one world, then the rest unless it raised |
| Runner.ForEachWorld | backuproll/core.py:529-531 | the loop over worlds, stopping at the first that raises (stated by `ForEachWorldStep`) |
| Runner.RestoreOrder | backuproll/core.py:596-626 | pre-restore hook, rsync, post-restore hook in order; a failed pre-hook stops; the restore fails iff rsync exits non-zero |
| Runner.RestoreRun | backuproll/core.py:596-626 | the pre-restore hook, rsync from the backup, the post-restore hook (stated by `RestoreOrder`) |
| Runner.MinecraftBackupRunner.constructor | backuproll/core.py:497-515 | the runner's directories, store, hooks, flags and world plans |
| Runner.MinecraftBackupRunner.RunHook | backuproll/core.py:546-553 | a hook starts its shell command unless unset or simulated; a non-zero exit is reported |
| Runner.MinecraftBackupRunner.DeleteEach | backuproll/core.py:524-527 | deletes the backups in order, stopping at the first error |
| Runner.MinecraftBackupRunner.CleanGroup | backuproll/core.py:524-527 | the cleanup of one retain group |
| Runner.MinecraftBackupRunner.CleanGroups | backuproll/core.py:522-527 | the cleanup of the given retain groups in order |
| Runner.MinecraftBackupRunner.CleanupWorld | backuproll/core.py:520-527 | the cleanup of one world |
| Runner.MinecraftBackupRunner.BackupWorld | backuproll/core.py:536-579 | the backup of one world with its hooks |
| Runner.MinecraftBackupRunner.BackupTry | backuproll/core.py:545-578 | the hooks and the rsync run on the opened collection |
| Runner.MinecraftBackupRunner.RestoreWorld | backuproll/core.py:596-626 | the restore with its hooks |
| Runner.MinecraftBackupRunner.CleanupWorlds | backuproll/core.py:529-531 | the cleanup of each world, stopping at the first error |
| Runner.MinecraftBackupRunner.BackupWorlds | backuproll/core.py:581-583 | the backup of each world, stopping at the first error |
| Runner.MinecraftBackupRunner.RotateWorld | backuproll/core.py:585-594 | the rotation of one world |
| Runner.MinecraftBackupRunner.RotateBackups | backuproll/core.py:585-594 | the rotation of each world, stopping at the first error |
| Roll.Strip | backuproll/core.py:887-891 | the result is a slice of the input with only whitespace cut off at each end, begins and ends with non-whitespace, and is the input itself when that already does |
| Roll.ShowNatDigits | backuproll/core.py:900-903 | `str()` of a pid is a non-empty digit string whose value is the pid |
| Roll.ShowIntStripped | backuproll/core.py:889-903 | `str()` of a pid is non-empty, has nothing for `strip()` to remove, and is a minus sign and the digits of the magnitude, or just the digits |
| Roll.ParseShowInt | backuproll/core.py:887-903 | `int()` reads back the pid that `str()` wrote |
| Roll.ParseShowIntNewline | backuproll/core.py:887-891 | `int()` reads the pid back even with a trailing newline |
| Roll.ParseInt | backuproll/core.py:889-891 | `int()` of the pid file: optional sign and decimal digits after stripping, else none (stated by `ParseShowInt`) |
| Roll.PidAlive | backuproll/core.py:892-898 | probes only a pid other than 0; a permission error escapes (stated by `LiveHolderBlocks` and `TryLockOnlyWhenAbsent`) |
| Roll.TryLockOutcome | backuproll/core.py:883-908 | a live holder refuses; otherwise the exclusive create decides (stated by `TryLockOnlyWhenAbsent`, `LiveHolderBlocks`, `StaleFileBlocks`) |
| Roll.TryLockOnlyWhenAbsent | backuproll/core.py:883-908 | the lock is taken iff there was no pid file; an unsignallable holder raises |
| Roll.LiveHolderBlocks | backuproll/core.py:892-896 | a pid file naming a live process blocks the lock |
| Roll.StaleFileBlocks | backuproll/core.py:897-905 | a pid file naming a dead process still blocks the exclusive create |
| Roll.LockOutcome | backuproll/core.py:802-805 | `do_activity` proceeds iff the lock was taken, else raises the lock error or the probe's error |
| Roll.ForEachWorldSilent | backuproll/core.py:529-531 | a loop of operations that start no process starts none |
| Roll.CleanupStartsNothing | backuproll/core.py:520-531 | cleanup starts no process |
| Roll.RotationStartsNothing | backuproll/core.py:585-594 | rotation starts no process |
| Roll.ActivityCallsAreBackupCalls | backuproll/core.py:807-816 | an activity's processes are exactly those of its backup phase, and none without it |
| Roll.ActivityNothing | backuproll/core.py:807-816 | an activity with nothing selected changes nothing |
| Roll.ActivityRun | backuproll/core.py:807-813 | cleanup, backup and rotation over the selected worlds, stopping at the first error (stated by `ActivityCallsAreBackupCalls` and `ActivityNothing`) |
| Roll.MinecraftBackupRoll.constructor | backuproll/core.py:656-758 | the roll's pid-file settings, runner and worlds, not yet locked |
| Roll.MinecraftBackupRoll.TryLock | backuproll/core.py:883-908 | the lock is taken iff there was no pid file; then the file holds this pid |
| Roll.MinecraftBackupRoll.Unlock | backuproll/core.py:872-876 | not locked raises; locked removes the pid file, raising if it is gone; `locked` stays set |
| Roll.MinecraftBackupRoll.ForceLockNow | backuproll/core.py:910-914 | a readonly roll raises; otherwise the lock is taken or the lock error raised |
| Roll.MinecraftBackupRoll.DoActivity | backuproll/core.py:792-816 | without the lock nothing changes; with it the selected operations run and the pid file is removed afterwards |
| Roll.MinecraftBackupRoll.RunActivity | backuproll/core.py:807-813 | cleanup, backup and rotation over the selected worlds, stopping at the first error |
| Legacy.DateTextOfName | backuproll.py:55-58 | with a non-empty suffix the slice recovers the timestamp text |
| Legacy.DateText | backuproll.py:55-58 | the slice `filename[len(prefix):-len(suffix)]` (stated by `DateTextOfName` and `DateTextEmptySuffix`) |
| Legacy.DateTextEmptySuffix | backuproll.py:57 | with an empty suffix the slice is empty |
| Legacy.ParseFilesMeaning | backuproll.py:196-201 | one backup per file, in order, whose timestamp is the parsed slice of its name |
| Legacy.ParseFiles | backuproll.py:200-201 | one `BackupFile` per matching file, raising where a name does not parse (stated by `ParseFilesMeaning`) |
| Legacy.ListBackupsFrom | backuproll.py:196-203 | the matching files of a folder, sorted by timestamp; a missing folder lists nothing (stated by `ListedFile` and `ListBackupsFromMeaning`) |
| Legacy.ListBackupsFromMeaning | backuproll.py:196-203 | the listing is ascending by timestamp and every file of the folder with the prefix and suffix is listed |
| Legacy.ListedFile | backuproll.py:196-203 | every listed backup is a regular file of that directory with the prefix and suffix |
| Legacy.FileStamps | backuproll.py:85-86 | the timestamps of a listing, position by position |
| Legacy.DailyFoldAppend | backuproll.py:92-96 | how the selection loop treats one more backup |
| Legacy.SelectPromoteDailyExtend | backuproll.py:88-98 | how the daily selection changes when one more backup is appended |
| Legacy.LegacyDailyAgrees | backuproll.py:88-98 | the legacy daily selection is the shared daily pick |
| Legacy.SelectPromoteDaily | backuproll.py:88-98 | the first backup of the day, replaced by each one before 13:00 (stated by `LegacyDailyAgrees`) |
| Legacy.SelectPromoteWeekly | backuproll.py:100-108 | the first backup with the week number (stated by `LegacyPeriodAgrees`) |
| Legacy.SelectPromoteMonthly | backuproll.py:110-118 | the first backup of the month (stated by `LegacyPeriodAgrees`) |
| Legacy.SelectFirstAgrees | backuproll.py:100-118 | "the first of a comprehension" is the shared first-match rule |
| Legacy.LegacyPeriodAgrees | backuproll.py:100-118 | the legacy weekly and monthly selections are the shared period picks |
| Legacy.FirstMatchingIsSelectFirst | backuproll.py:217-231 | the for-return loop finds the comprehension's first element |
| Legacy.FirstMatching | backuproll.py:217-231 | the for-return loop over a listing (stated by `FirstMatchingMeaning` and `FirstMatchingIsSelectFirst`) |
| Legacy.FirstMatchingMeaning | backuproll.py:217-231 | the loop finds nothing iff no backup matches; what it finds is a matching backup of the list |
| Legacy.BackupForDate | backuproll.py:217-231 | the first backup of the tier's listing in the period of the date (stated through `FirstMatchingMeaning`) |
| Legacy.DailyGuardsCompared | backuproll.py:120-125 | when the legacy daily clock test passes, the core does not defer; at 12:xx on the day the legacy refuses while the core does not defer |
| Legacy.ShouldPromoteFile | backuproll.py:120-131 | the three legacy guards (stated by `ShouldPromoteFileMeaning`) |
| Legacy.ShouldPromoteFileMeaning | backuproll.py:120-131 | promote iff (for daily) a later day or 13:00 or after, the tier keeps backups, and no backup of the tier is in the period |
| Legacy.LegacyWaitsAnHourLonger | backuproll.py:120-125 | at 12:xx on the day the legacy refuses a daily promotion that the core still considers |
| Legacy.LinkIntoMeaning | backuproll.py:146-154 | linking succeeds iff the name is new in the directory, then adds it; the directory exists afterwards |
| Legacy.LinkInto | backuproll.py:150-154 | `makedirs` ignoring an existing directory, then `os.link` (stated by `LinkIntoMeaning`) |
| Legacy.SelectForMember | backuproll.py:88-118 | a selection returns one of the given backups |
| Legacy.PromoteIntoSource | backuproll.py:156-183 | a promotion that changes the disk adds one file listed in the source tier (`daily` for weekly and monthly) |
| Legacy.PromoteInto | backuproll.py:158-183 | one guarded promotion block: the guard, the selection from the source tier, the link (stated by `PromoteIntoSource` and `PromoteIntoSimulate`) |
| Legacy.PromoteFiles | backuproll.py:156-183 | daily, weekly, then monthly promotion (stated by `PromoteFilesSimulate`) |
| Legacy.PromoteIntoSimulate | backuproll.py:146-154 | simulate links nothing |
| Legacy.PromoteFilesSimulate | backuproll.py:156-183 | a simulated promotion leaves the disk unchanged |
| Legacy.DeletionFromPart | backuproll.py:133-144 | each tier's evicted backups are part of the deletion list |
| Legacy.DeletionFilesMeaning | backuproll.py:133-144 | per tier, keep 0 evicts nothing and keep k evicts the first n - k of the sorted listing, none newer than a kept backup |
| Legacy.DeletionFiles | backuproll.py:133-144 | the evicted backups of recent, daily, weekly and monthly (stated by `DeletionFilesMeaning`) |
| Legacy.DeletionFromKeepZero | backuproll.py:133-144 | tiers that keep 0 contribute nothing |
| Legacy.DeletionFilesKeepZero | backuproll.py:133-144 | an all-zero plan deletes nothing |
| Legacy.WithoutMeaning | backuproll.py:189 | removing a file name removes exactly that name |
| Legacy.RemoveFilesShrinks | backuproll.py:191-194 | deletion only removes files and creates no directory |
| Legacy.RemoveFiles | backuproll.py:185-194 | `os.remove` of each file in turn, stopping at a missing one (stated by `RemoveFilesShrinks` and `RemoveFilesRemoves`) |
| Legacy.CleanupFiles | backuproll.py:191-194 | removes the deletion list unless simulating (stated by `CleanupFilesSimulate`) |
| Legacy.RemoveFilesRemoves | backuproll.py:191-194 | after a deletion that passed, every file on the list is gone |
| Legacy.CleanupFilesSimulate | backuproll.py:185-194 | a simulated cleanup leaves the disk unchanged |
| Legacy.Disk.constructor | backuproll.py:196-203 | a disk with the given directory contents |
| Legacy.Disk.Link | backuproll.py:150-154 | the directory is created and the file linked into it, as `LinkInto` states |
| Legacy.Disk.Remove | backuproll.py:189 | a missing file raises; otherwise exactly that file is removed |
| Legacy.BackupRoll.constructor | backuproll.py:64-71 | a roll with the given configuration over the disk |
| Legacy.BackupRoll.PromoteBackupToDir | backuproll.py:146-154 | simulate changes nothing; otherwise the file is linked into the directory |
| Legacy.BackupRoll.PromoteTier | backuproll.py:156-183 | one tier's guarded promotion |
| Legacy.BackupRoll.PromoteBackups | backuproll.py:156-183 | daily, weekly, then monthly promotion |
| Legacy.BackupRoll.DeleteBackup | backuproll.py:185-189 | simulate changes nothing; otherwise the file is removed |
| Legacy.BackupRoll.CleanupBackups | backuproll.py:191-194 | every file on the deletion list is removed in order |
| Legacy.RollDir | backuproll.py:258-262 | rolling a directory never reports a failed backup command |
| Legacy.DirRollRollsDirectoryOnly | backuproll.py:258-262 | the directory roll never reports a failed backup command |
| Legacy.BackupCalls | backuproll.py:250-252 | the shell command for each world is the backup command followed by the world name |
| Legacy.RollWorldsCalls | backuproll.py:248-262 | the commands started are the backup commands of a prefix of the worlds, in order |
| Legacy.RollWorld | backuproll.py:249-262 | one world: the backup command, then the roll of its directory (stated by `RollWorldsCalls`) |
| Legacy.RollWorlds | backuproll.py:248-262 | the worlds in order, stopping at the first failed backup (stated by `RollWorldsCalls`, `RollWorldsExits`, `RollWorldsSimulate`) |
| Legacy.RollWorldsExits | backuproll.py:248-262 | a full run had every command exit 0; a stop for a failed backup has a last command that exited non-zero |
| Legacy.RollWorldsSimulate | backuproll.py:239-262 | simulate starts no command and leaves the disk unchanged |
| Legacy.RollDirSimulate | backuproll.py:258-262 | a simulated directory roll leaves the disk unchanged |
| Legacy.DoBackupRoll | backuproll.py:248-262 | the whole roll over the worlds, stopping at the first failure |
| Legacy.RollOne | backuproll.py:249-262 | one world's backup command and directory roll |
| Legacy.RollDirectory | backuproll.py:258-262 | one world's promotion and cleanup |

## Left out

- Archive streaming (`create_tar_file`, `tar_file_generator`) and its writer thread: it is I/O and concurrency.
- Real processes and file systems. Exit codes are a function parameter (`exitOf`). Started commands are recorded as a trace of argument vectors. `os.kill` is a probe function.
- `strptime` and `strftime`: they are a `DateFormat` pair of functions (render, parse). The ISO week number is an `isoWeek` parameter, and the current time is a `now` parameter. One `now` serves a whole activity. The legacy script reads `date.today()` and `datetime.now()` separately, and the model uses the same instant for both.
- Path normalisation by `pathlib` and `os.path.join`: paths are strings joined with `/`.
- `str.format` replacement fields other than `{world}` in hook commands, and the `{{`/`}}` escapes: `Runner.FormatCommand` copies text after any other `{` unchanged.
- `int()` accepts underscores and non-ASCII digits: the pid parser accepts an optional sign and ASCII digits only.
- `iterdir` and `listdir` order is taken as the order of the stored sequence.
- Subdirectories of a collection that are not retain groups: the model has only the six groups.
- `do_restore`, `_do_restore` and `interactive_restore`: the interactive interface is not part of this model. The restore itself is `RestoreWorld`.
- The configuration plumbing of `MinecraftBackupRoll.__init__` and the command-line entry points: the model takes their results as constructor parameters.
- Retention plans missing a key (`KeyError`): a `Plan` always has all four counts.
- `get_all_backups` and `list_collections`: nothing in the modelled operations uses them.
- Verbose printing, and the stdout/stderr redirection of started processes.
- `_lock`, the busy-wait lock: it loops forever while another holder lives. Only `_try_lock` is modelled.
- Roll.Strip: `IsSpace` covers only space, tab, line feed, carriage return, vertical tab and form feed. Python's `int()` also strips every other character that `str.isspace` accepts, such as U+001C to U+001F, U+0085, U+00A0, U+2000 to U+200A and U+3000. A pid file padded with those parses in Python and not in the model.
- BackupStore.Store.Finalize: the rename refuses any existing target with `FileExists`. POSIX `rename` of a directory onto an existing empty directory succeeds, and the model's entries carry no contents to tell an empty target from a full one.

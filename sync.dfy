/**
 * `RsyncBackupCommand` of backuproll/core.py: the rsync argument lists, a backup run
 * (`run_blocking`) and a restore run (`run_restore`).  Processes are not executed: each
 * started process is appended to a trace, and its exit status is an input to the model.
 */
module Sync {
  import opened Wrappers
  import opened Calendar
  import opened BackupStore

  /** A process started by the core: a shell command line (`shell=True`) or an argument vector. */
  datatype Invocation = Shell(command: string) | Exec(argv: seq<string>)

  /** The processes started so far, and the exit status each invocation returns. */
  class Processes {
    const exitOf: Invocation -> int
    var trace: seq<Invocation>

    constructor (exitOf: Invocation -> int)
      ensures this.exitOf == exitOf && trace == []
    {
      this.exitOf := exitOf;
      trace := [];
    }

    /** `subprocess.call`: start the process, wait for it and return its exit status. */
    method Call(inv: Invocation) returns (code: int)
      modifies this
      ensures trace == old(trace) + [inv] && code == exitOf(inv)
    {
      trace := trace + [inv];
      code := exitOf(inv);
    }
  }

  /** `RsyncBackupCommand.__init__`: the caller's flags, then `-a --delete`, then `-v` when verbose. */
  function RsyncFlags(extra: seq<string>, verbose: bool): seq<string> {
    extra + ["-a", "--delete"] + (if verbose then ["-v"] else [])
  }

  const LinkDestOption: string := "--link-dest="

  predicate IsLinkDest(arg: string) {
    LinkDestOption <= arg
  }

  /** The arguments of a backup run: flags, `--link-dest=<latest>` when there is a latest backup, source, destination. */
  function BackupArgs(flags: seq<string>, linkDest: Option<string>, source: string, dest: string): seq<string> {
    flags + (if linkDest.Some? then [LinkDestOption + linkDest.value] else []) + [source, dest]
  }

  /**
   * With the flags the core uses, a backup run carries a `--link-dest` argument iff there is
   * a latest backup to hard-link against, and then it names that backup; the last two
   * arguments are always the source and the destination.
   */
  lemma LinkDestIffLatest(verbose: bool, linkDest: Option<string>, source: string, dest: string)
    requires !IsLinkDest(source) && !IsLinkDest(dest)
    ensures var args := BackupArgs(RsyncFlags([], verbose), linkDest, source, dest);
      && ((exists i :: 0 <= i < |args| && IsLinkDest(args[i])) <==> linkDest.Some?)
      && (linkDest.Some? ==> LinkDestOption + linkDest.value in args)
      && args[|args| - 2..] == [source, dest]
  {
    var flags := RsyncFlags([], verbose);
    var args := BackupArgs(flags, linkDest, source, dest);
    assert forall i :: 0 <= i < |flags| ==> !IsLinkDest(flags[i]);
    if linkDest.Some? {
      var k := |flags|;
      assert args[k] == LinkDestOption + linkDest.value;
      assert IsLinkDest(args[k]);
    } else {
      assert args == flags + [source, dest];
      forall i | 0 <= i < |args|
        ensures !IsLinkDest(args[i])
      {
        if i >= |flags| {
          assert args[i] == source || args[i] == dest;
        }
      }
    }
  }

  /** What a run of the command is given: the store, the world and group, the source and the flags. */
  datatype SyncConfig = SyncConfig(
    storeDir: string, world: string, group: Tier, fmt: NameFormat, readonly: bool,
    source: string, flags: seq<string>, simulate: bool)

  /** What a run left behind: the collection's directory, the processes started, and the result. */
  datatype Run<R> = Run(coll: CollectionDir, calls: seq<Invocation>, result: R)

  /** `run_blocking` names a backup after the clock (`new_empty_backup`) when given no name or an empty one. */
  function BackupText(name: Option<string>, now: DateTime, df: DateFormat): string {
    if name.None? || name.value == "" then df.render(now) else name.value
  }

  /** The `--link-dest` target: the latest finalized backup's directory, if any. */
  function LinkDest(cfg: SyncConfig, latest: Option<Backup>): Option<string> {
    if latest.Some? then Some(EntryPath(cfg.storeDir, cfg.world, latest.value.group, latest.value.entry)) else None
  }

  /** The rsync argument vector of a backup run into the directory `e` of the configured group. */
  function BackupArgv(cfg: SyncConfig, latest: Option<Backup>, e: string): seq<string> {
    ["rsync"] + BackupArgs(cfg.flags, LinkDest(cfg, latest), cfg.source, EntryPath(cfg.storeDir, cfg.world, cfg.group, e))
  }

  /**
   * `run_blocking` on collection `c`: find the latest backup, create `<name>.in-progress`,
   * run rsync into it (not in simulate mode), and on exit status 0 finalize the backup and
   * repoint both `latest` links at it.  The result is `Ok(false)` for a non-zero exit status.
   */
  function BlockingRun(cfg: SyncConfig, exitOf: Invocation -> int, c: CollectionDir, text: string): Run<Result<bool, Error>> {
    match LatestBackup(cfg.fmt, c, cfg.group, cfg.readonly)
    case Err(err) => Run(c, [], Err(err))
    case Ok(latest) =>
      if cfg.readonly then Run(c, [], Err(StoreReadonly))
      else
        var name := ComposeName(cfg.fmt, text);
        var e := DirName(name, true);
        var c1 := if e in Entries(c, cfg.group) then c else AddEntry(c, cfg.group, e);
        match ParseName(cfg.fmt, name)
        case None => Run(c1, [], Err(MalformedName(name)))
        case Some(_) => CreatedRun(cfg, exitOf, c1, latest, name)
  }

  /** The part of `run_blocking` after the in-progress directory for `name` exists in `c1`. */
  function CreatedRun(cfg: SyncConfig, exitOf: Invocation -> int, c1: CollectionDir, latest: Option<Backup>, name: string): Run<Result<bool, Error>> {
    var e := DirName(name, true);
    var call := Exec(BackupArgv(cfg, latest, e));
    if cfg.simulate then Run(c1, [], Ok(true))
    else if exitOf(call) != 0 then Run(c1, [call], Ok(false))
    else if name in Entries(c1, cfg.group) then Run(c1, [call], Err(FileExists(name)))
    else
      var target := LinkTarget(cfg.group, name);
      Run(SetGroupLatest(RenameEntry(c1, cfg.group, e, name), cfg.group, target).(latest := Some(target)), [call], Ok(true))
  }

  /** Simulate mode starts no process and reports success, yet leaves the `.in-progress` directory behind. */
  lemma BlockingSimulate(cfg: SyncConfig, exitOf: Invocation -> int, c: CollectionDir, text: string)
    requires cfg.simulate
    ensures var run := BlockingRun(cfg, exitOf, c, text);
      && run.calls == []
      && (run.result.Ok? <==>
            LatestBackup(cfg.fmt, c, cfg.group, cfg.readonly).Ok? && !cfg.readonly
            && ParseName(cfg.fmt, ComposeName(cfg.fmt, text)).Some?)
      && (run.result.Ok? ==>
            run.result.value && DirName(ComposeName(cfg.fmt, text), true) in Entries(run.coll, cfg.group))
  {
  }

  /** A renamed entry no longer appears under its old name. */
  lemma RenameRemoves(c: CollectionDir, t: Tier, from: string, to: string)
    requires from != to
    ensures from !in Entries(RenameEntry(c, t, from, to), t)
    ensures to in Entries(c, t) || from in Entries(c, t) ==> to in Entries(RenameEntry(c, t, from, to), t)
    ensures forall u :: u != t ==> Entries(RenameEntry(c, t, from, to), u) == Entries(c, u)
  {
    var es := Entries(c, t);
    var rs := Entries(RenameEntry(c, t, from, to), t);
    assert |rs| == |es| && forall i :: 0 <= i < |es| ==> rs[i] == if es[i] == from then to else es[i];
    if to in es {
      var i :| 0 <= i < |es| && es[i] == to;
      assert rs[i] == to;
    } else if from in es {
      var i :| 0 <= i < |es| && es[i] == from;
      assert rs[i] == to;
    }
  }

  /** A blocking run that returns a value got past the listing and the name check, with the in-progress directory created. */
  lemma BlockingRunCreated(cfg: SyncConfig, exitOf: Invocation -> int, c: CollectionDir, text: string)
    requires BlockingRun(cfg, exitOf, c, text).result.Ok?
    ensures var latest := LatestBackup(cfg.fmt, c, cfg.group, cfg.readonly);
      var name := ComposeName(cfg.fmt, text);
      var e := DirName(name, true);
      var c1 := if e in Entries(c, cfg.group) then c else AddEntry(c, cfg.group, e);
      && latest.Ok? && !cfg.readonly && ParseName(cfg.fmt, name).Some?
      && e in Entries(c1, cfg.group)
      && c1.latest == c.latest && Group(c1, cfg.group).latest == Group(c, cfg.group).latest
      && (forall u :: u != cfg.group ==> Entries(c1, u) == Entries(c, u))
      && BlockingRun(cfg, exitOf, c, text) == CreatedRun(cfg, exitOf, c1, latest.value, name)
  {
  }

  /**
   * Exit status 0: the backup directory is renamed from `<name>.in-progress` to `<name>`,
   * it reads back as a finalized backup, both `latest` links point at it, and no other
   * retain group changes.
   */
  lemma BlockingSuccess(cfg: SyncConfig, exitOf: Invocation -> int, c: CollectionDir, text: string)
    requires !cfg.simulate && BlockingRun(cfg, exitOf, c, text).result == Ok(true)
    ensures var run := BlockingRun(cfg, exitOf, c, text);
      var name := ComposeName(cfg.fmt, text);
      var target := LinkTarget(cfg.group, name);
      && |run.calls| == 1 && exitOf(run.calls[0]) == 0
      && name in Entries(run.coll, cfg.group)
      && DirName(name, true) !in Entries(run.coll, cfg.group)
      && Group(run.coll, cfg.group).latest == Some(target) && run.coll.latest == Some(target)
      && (forall u :: u != cfg.group ==> Entries(run.coll, u) == Entries(c, u))
      && (!EndsWith(name, InProgressMark) ==>
            GetBackup(cfg.fmt, cfg.group, cfg.readonly, name)
            == Ok(Backup(cfg.group, name, ParseName(cfg.fmt, name).value, false, name, cfg.readonly)))
  {
    BlockingRunCreated(cfg, exitOf, c, text);
    var latest := LatestBackup(cfg.fmt, c, cfg.group, cfg.readonly);
    var name := ComposeName(cfg.fmt, text);
    var e := DirName(name, true);
    var c1 := if e in Entries(c, cfg.group) then c else AddEntry(c, cfg.group, e);
    var call := Exec(BackupArgv(cfg, latest.value, e));
    var renamed := RenameEntry(c1, cfg.group, e, name);
    var target := LinkTarget(cfg.group, name);
    var done := SetGroupLatest(renamed, cfg.group, target).(latest := Some(target));
    assert CreatedRun(cfg, exitOf, c1, latest.value, name) == Run(done, [call], Ok(true));
    assert |e| > |name|;
    RenameRemoves(c1, cfg.group, e, name);
    assert Entries(done, cfg.group) == Entries(renamed, cfg.group);
    if !EndsWith(name, InProgressMark) {
      GetBackupOfDirName(cfg.fmt, cfg.group, cfg.readonly, name, false);
    }
  }


  /**
   * A non-zero exit status returns `Ok(false)` and leaves the backup in progress: its
   * `.in-progress` directory stays and reads back as an in-progress backup, and neither
   * `latest` link moves.
   */
  lemma BlockingFailure(cfg: SyncConfig, exitOf: Invocation -> int, c: CollectionDir, text: string)
    requires !cfg.simulate && BlockingRun(cfg, exitOf, c, text).result == Ok(false)
    ensures var run := BlockingRun(cfg, exitOf, c, text);
      var name := ComposeName(cfg.fmt, text);
      var e := DirName(name, true);
      && |run.calls| == 1 && exitOf(run.calls[0]) != 0
      && e in Entries(run.coll, cfg.group)
      && run.coll.latest == c.latest && Group(run.coll, cfg.group).latest == Group(c, cfg.group).latest
      && (forall u :: u != cfg.group ==> Entries(run.coll, u) == Entries(c, u))
      && (!EndsWith(name, InProgressMark) ==>
            GetBackup(cfg.fmt, cfg.group, cfg.readonly, e)
            == Ok(Backup(cfg.group, name, ParseName(cfg.fmt, name).value, true, e, cfg.readonly)))
  {
    BlockingRunCreated(cfg, exitOf, c, text);
    var latest := LatestBackup(cfg.fmt, c, cfg.group, cfg.readonly);
    var name := ComposeName(cfg.fmt, text);
    var e := DirName(name, true);
    var c1 := if e in Entries(c, cfg.group) then c else AddEntry(c, cfg.group, e);
    var call := Exec(BackupArgv(cfg, latest.value, e));
    assert CreatedRun(cfg, exitOf, c1, latest.value, name) == Run(c1, [call], Ok(false));
    if !EndsWith(name, InProgressMark) {
      GetBackupOfDirName(cfg.fmt, cfg.group, cfg.readonly, name, true);
    }
  }


  /** The rsync arguments of `run_restore`: `<backup>/<world>/<sub>` onto `<source>/<sub>`. */
  function RestoreArgv(cfg: SyncConfig, b: Backup, subdirectory: string): seq<string> {
    var backupWorld := PathJoin(EntryPath(cfg.storeDir, cfg.world, b.group, b.entry), cfg.world);
    ["rsync"] + cfg.flags + [PathJoin(backupWorld, subdirectory), PathJoin(cfg.source, subdirectory)]
  }

  /**
   * A restore copies the world directory stored inside the backup onto the world directory,
   * and with a subdirectory the same subdirectory of both.
   */
  lemma RestorePathsAgree(cfg: SyncConfig, b: Backup, subdirectory: string)
    ensures var argv := RestoreArgv(cfg, b, subdirectory);
      var backupWorld := PathJoin(EntryPath(cfg.storeDir, cfg.world, b.group, b.entry), cfg.world);
      && argv[..|cfg.flags| + 1] == ["rsync"] + cfg.flags
      && (subdirectory == "" ==> argv[|argv| - 2..] == [backupWorld, cfg.source])
      && (subdirectory != "" ==>
            argv[|argv| - 2..] == [backupWorld + "/" + subdirectory, cfg.source + "/" + subdirectory])
  {
    var argv := RestoreArgv(cfg, b, subdirectory);
    assert argv[..|cfg.flags| + 1] == ["rsync"] + cfg.flags;
  }

  /** A `RsyncBackupCommand`: a world directory synchronised with one retain group of the store. */
  class RsyncCommand {
    const store: Store
    const procs: Processes
    const world: string
    const group: Tier
    const source: string
    const simulate: bool
    const flags: seq<string>

    constructor (source: string, store: Store, procs: Processes, world: string, group: Tier,
                 simulate: bool, verbose: bool, extraFlags: seq<string>)
      ensures this.source == source && this.store == store && this.procs == procs
      ensures this.world == world && this.group == group && this.simulate == simulate
      ensures flags == RsyncFlags(extraFlags, verbose)
    {
      this.source := source;
      this.store := store;
      this.procs := procs;
      this.world := world;
      this.group := group;
      this.simulate := simulate;
      flags := RsyncFlags(extraFlags, verbose);
    }

    function Config(): SyncConfig {
      SyncConfig(store.directory, world, group, store.Format(world), store.readonly, source, flags, simulate)
    }

    /** `run_rsync`: in simulate mode nothing is started and the exit status is 0. */
    method RunRsync(args: seq<string>) returns (code: int)
      modifies procs
      ensures simulate ==> code == 0 && procs.trace == old(procs.trace)
      ensures !simulate ==> procs.trace == old(procs.trace) + [Exec(["rsync"] + args)]
                            && code == procs.exitOf(Exec(["rsync"] + args))
    {
      if simulate {
        return 0;
      }
      code := procs.Call(Exec(["rsync"] + args));
    }

    /** `run_blocking`, proved to do what `BlockingRun` describes. */
    method RunBlocking(name: Option<string>, now: DateTime) returns (r: Result<bool, Error>)
      requires world in store.collections
      modifies store, procs
      ensures var run := BlockingRun(Config(), procs.exitOf, old(store.collections)[world], BackupText(name, now, store.dateformat));
        && store.collections == old(store.collections)[world := run.coll]
        && procs.trace == old(procs.trace) + run.calls
        && r == run.result
    {
      var c := store.collections[world];
      var fmt := store.Format(world);
      var latest := LatestBackup(fmt, c, group, store.readonly);
      if latest.Err? {
        return Err(latest.error);
      }
      var text := BackupText(name, now, store.dateformat);
      var created := store.NewBackupNamed(world, group, text);
      if created.Err? {
        return Err(created.error);
      }
      var b := created.value;
      r := FinishBlocking(latest.value, b);
    }

    /** The rsync call, the rename and the latest links of `run_blocking`, for the in-progress backup `b`. */
    method FinishBlocking(latest: Option<Backup>, b: Backup) returns (r: Result<bool, Error>)
      requires world in store.collections && !store.readonly
      requires b.group == group && b.inProgress && !b.readonly && b.entry == DirName(b.name, true)
      requires b.entry in Entries(store.collections[world], group)
      modifies store, procs
      ensures var run := CreatedRun(Config(), procs.exitOf, old(store.collections)[world], latest, b.name);
        && store.collections == old(store.collections)[world := run.coll]
        && procs.trace == old(procs.trace) + run.calls
        && r == run.result
    {
      var args := BackupArgs(flags, LinkDest(Config(), latest), source, EntryPath(store.directory, world, group, b.entry));
      assert ["rsync"] + args == BackupArgv(Config(), latest, b.entry);
      var code := RunRsync(args);
      if simulate {
        return Ok(true);
      }
      if code != 0 {
        return Ok(false);
      }
      assert |b.entry| > |b.name|;
      var finalized := store.Finalize(world, b);
      if finalized.Err? {
        return Err(finalized.error);
      }
      store.SetLatestLinks(world, group, LinkTarget(group, finalized.value.entry));
      r := Ok(true);
    }

    /** `run_restore`: true iff rsync exits with status 0 (always, in simulate mode). */
    method RunRestore(b: Backup, subdirectory: string) returns (ok: bool)
      modifies procs
      ensures var call := Exec(RestoreArgv(Config(), b, subdirectory));
        && (simulate ==> ok && procs.trace == old(procs.trace))
        && (!simulate ==> procs.trace == old(procs.trace) + [call] && (ok <==> procs.exitOf(call) == 0))
    {
      var backupWorld := PathJoin(EntryPath(store.directory, world, b.group, b.entry), world);
      var args := flags + [PathJoin(backupWorld, subdirectory), PathJoin(source, subdirectory)];
      assert ["rsync"] + args == RestoreArgv(Config(), b, subdirectory);
      var code := RunRsync(args);
      ok := code == 0;
    }
  }
}

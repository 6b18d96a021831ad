/**
 * `MinecraftBackupRunner` of backuproll/core.py: removing leftover in-progress backups,
 * one backup run between the pre-, post- and fail-hooks, the rotation of every world that
 * has a keep plan, and a restore between its own hooks.  Hook and rsync exit statuses are
 * inputs (`Processes.exitOf`); the functions below state each operation's effect on the
 * store and on the trace of started processes, and the class performs it.
 */
module Runner {
  import opened Wrappers
  import opened Calendar
  import opened Seqs
  import opened BackupStore
  import opened Rotation
  import opened Sync

  const WorldField: string := "{world}"

  /** `parse_command`: `command.format(world=...)`, with `{world}` the one replacement field. */
  function FormatCommand(command: string, world: string): string
    decreases |command|
  {
    if |command| < |WorldField| then command
    else if command[..|WorldField|] == WorldField then world + FormatCommand(command[|WorldField|..], world)
    else [command[0]] + FormatCommand(command[1..], world)
  }

  /** A command without a replacement field is run as it is written. */
  lemma {:induction false} FormatCommandPlain(command: string, world: string)
    requires '{' !in command
    ensures FormatCommand(command, world) == command
    decreases |command|
  {
    if |command| >= |WorldField| {
      assert command[0] != '{';
      assert command[..|WorldField|][0] == command[0];
      assert '{' !in command[1..];
      FormatCommandPlain(command[1..], world);
      assert command == [command[0]] + command[1..];
    }
  }

  /** The text up to the first `{world}` is kept and the field is replaced by the world's name. */
  lemma {:induction false} FormatCommandField(before: string, after: string, world: string)
    requires '{' !in before
    ensures FormatCommand(before + WorldField + after, world) == before + world + FormatCommand(after, world)
    decreases |before|
  {
    var s := before + WorldField + after;
    if before == [] {
      assert s == WorldField + after;
      assert s[..|WorldField|] == WorldField;
      assert s[|WorldField|..] == after;
    } else {
      var rest := before[1..] + WorldField + after;
      assert s[0] == before[0] && s[1..] == rest;
      assert s[..|WorldField|] != WorldField by {
        assert s[..|WorldField|][0] == before[0] && before[0] != '{';
      }
      assert FormatCommand(s, world) == [before[0]] + FormatCommand(rest, world);
      assert '{' !in before[1..];
      FormatCommandField(before[1..], after, world);
      assert [before[0]] + (before[1..] + world + FormatCommand(after, world)) == before + world + FormatCommand(after, world);
    }
  }

  /** The optional shell hooks around a backup run. */
  datatype Hooks = Hooks(pre: Option<string>, post: Option<string>, fail: Option<string>)

  /** A hook is configured when it is a non-empty string (Python truthiness). */
  predicate Configured(hook: Option<string>) {
    hook.Some? && hook.value != ""
  }

  /** The shell command a hook starts for `world`: none when unconfigured or in simulate mode. */
  function HookCalls(hook: Option<string>, world: string, simulate: bool): seq<Invocation> {
    if Configured(hook) && !simulate then [Shell(FormatCommand(hook.value, world))] else []
  }

  /** Whether a started hook exited with a non-zero status. */
  predicate HookFails(calls: seq<Invocation>, exitOf: Invocation -> int) {
    calls != [] && exitOf(calls[0]) != 0
  }

  /** The runner's settings, as far as the model's operations read them. */
  datatype RunnerConfig = RunnerConfig(
    storeDir: string, readonly: bool, dateformat: DateFormat, worldsDir: string, hooks: Hooks,
    simulate: bool, verbose: bool, worldconfig: map<string, Plan>, isoWeek: Date -> int)

  /** The `RsyncBackupCommand` the runner builds for `world` and retain group `t`. */
  function SyncFor(cfg: RunnerConfig, world: string, t: Tier): SyncConfig {
    SyncConfig(cfg.storeDir, world, t, DefaultFormat(world, cfg.dateformat), cfg.readonly,
               PathJoin(cfg.worldsDir, world), RsyncFlags([], cfg.verbose), cfg.simulate)
  }

  /** A collection after `get_collection`: a writable store creates every retain group. */
  function Opened(readonly: bool, c: CollectionDir): CollectionDir {
    if readonly then c else EnsureGroups(c, AllGroups)
  }

  /** A second update of the same world replaces the first. */
  lemma UpdateTwice(m: map<string, CollectionDir>, world: string, a: CollectionDir, b: CollectionDir)
    ensures m[world := a][world := b] == m[world := b]
  {
  }

  lemma AppendAssoc(a: seq<Invocation>, b: seq<Invocation>, c: seq<Invocation>)
    ensures a + b + c == a + (b + c)
  {
  }

  /** What an operation did to the whole store, which processes it started, and how it ended. */
  datatype Effect = Effect(colls: map<string, CollectionDir>, calls: seq<Invocation>, outcome: Outcome<Error>)

  // ---------------------------------------------------------------- cleanup_world

  /** An entry that `list_in_progress_backups` reports: listed, and named `<name>.in-progress`. */
  predicate InProgressEntry(fmt: NameFormat, e: string) {
    Listed(fmt, e) && EndsWith(e, InProgressMark)
  }

  /** `list_retain_groups`: the retain groups that exist as directories, in a fixed order. */
  function PresentGroups(c: CollectionDir): seq<Tier> {
    Filter(AllGroups, (t: Tier) => t in c.groups)
  }

  /** The loop of `cleanup_world`: each group's in-progress backups are deleted, unless simulating. */
  function CleanupGroups(fmt: NameFormat, c: CollectionDir, ro: bool, simulate: bool, ts: seq<Tier>): (CollectionDir, Outcome<Error>)
    decreases |ts|
  {
    if ts == [] then (c, Pass)
    else
      var first := CleanupGroup(fmt, c, ro, simulate, ts[0]);
      if first.1.Fail? then first else CleanupGroups(fmt, first.0, ro, simulate, ts[1..])
  }

  /** One group of `cleanup_world`'s loop: list its in-progress backups and delete them. */
  function CleanupGroup(fmt: NameFormat, c: CollectionDir, ro: bool, simulate: bool, t: Tier): (CollectionDir, Outcome<Error>) {
    match ListInProgress(fmt, c, t, ro)
    case Err(e) => (c, Fail(e))
    case Ok(bs) => if simulate then (c, Pass) else DeleteAll(c, bs)
  }

  lemma CleanupGroupsStep(fmt: NameFormat, c: CollectionDir, ro: bool, simulate: bool, ts: seq<Tier>, i: nat)
    requires i < |ts|
    ensures CleanupGroups(fmt, c, ro, simulate, ts[i..]) ==
      var first := CleanupGroup(fmt, c, ro, simulate, ts[i]);
      if first.1.Fail? then first else CleanupGroups(fmt, first.0, ro, simulate, ts[i + 1..])
  {
    assert ts[i..][0] == ts[i];
    assert ts[i..][1..] == ts[i + 1..];
  }

  /** `cleanup_world`: open the collection, then clean every retain group that exists. */
  function CleanupWorldSpec(cfg: RunnerConfig, m: map<string, CollectionDir>, world: string): Effect {
    if cfg.readonly && world !in m then Effect(m, [], Fail(StoreReadonly))
    else
      var c0 := Opened(cfg.readonly, Coll(m, world));
      var res := CleanupGroups(DefaultFormat(world, cfg.dateformat), c0, cfg.readonly, cfg.simulate, PresentGroups(c0));
      Effect(m[world := res.0], [], res.1)
  }

  lemma CleanupWorldSpecOpened(cfg: RunnerConfig, m: map<string, CollectionDir>, world: string)
    requires !(cfg.readonly && world !in m)
    ensures var c0 := Opened(cfg.readonly, Coll(m, world));
      var res := CleanupGroups(DefaultFormat(world, cfg.dateformat), c0, cfg.readonly, cfg.simulate, PresentGroups(c0));
      CleanupWorldSpec(cfg, m, world) == Effect(m[world := res.0], [], res.1)
  {
  }

  /**
   * Deleting one group's in-progress backups removes exactly its entries that are listed and
   * end in `.in-progress`, keeps the order of the others, and touches no other group.
   */
  lemma CleanupGroupStep(fmt: NameFormat, c: CollectionDir, t: Tier, ro: bool)
    requires ListInProgress(fmt, c, t, ro).Ok?
    requires DeleteAll(c, ListInProgress(fmt, c, t, ro).value).1.Pass?
    ensures var c1 := DeleteAll(c, ListInProgress(fmt, c, t, ro).value).0;
      && Entries(c1, t) == Filter(Entries(c, t), e => !InProgressEntry(fmt, e))
      && forall u :: u != t ==> Entries(c1, u) == Entries(c, u)
  {
    var bs := ListInProgress(fmt, c, t, ro).value;
    var all := ListAllBackups(fmt, c, t, ro);
    assert all.Ok?;
    ListBackupsMeaning(fmt, c, t, ro);
    DeleteAllMeaning(c, bs);
    var es := Entries(c, t);
    forall i | 0 <= i < |es|
      ensures Doomed(bs, t, es[i]) == InProgressEntry(fmt, es[i])
    {
      var e := es[i];
      if Doomed(bs, t, e) {
        var b :| b in bs && b.group == t && b.entry == e;
        ListAllMember(fmt, c, t, ro, b);
      }
      if InProgressEntry(fmt, e) {
        ListAllComplete(fmt, c, t, ro, e);
        var b := GetBackup(fmt, t, ro, e).value;
        assert b in bs;
      }
    }
    FilterCongruent(es, e => !Doomed(bs, t, e), e => !InProgressEntry(fmt, e));
    forall u | u != t
      ensures Entries(DeleteAll(c, bs).0, u) == Entries(c, u)
    {
      forall e
        ensures !Doomed(bs, u, e)
      {
        if Doomed(bs, u, e) {
          var b :| b in bs && b.group == u && b.entry == e;
          ListAllMember(fmt, c, t, ro, b);
        }
      }
      FilterKeepsAll(Entries(c, u), e => !Doomed(bs, u, e));
    }
  }

  /** The groups of `ts` are pairwise different. */
  predicate Distinct(ts: seq<Tier>) {
    forall i, j :: 0 <= i < j < |ts| ==> ts[i] != ts[j]
  }

  /**
   * `cleanup_world`'s loop: simulate mode deletes nothing; otherwise, when nothing raises,
   * every visited group loses exactly its in-progress entries and every other group is kept.
   */
  lemma {:induction false} CleanupGroupsMeaning(fmt: NameFormat, c: CollectionDir, ro: bool, simulate: bool, ts: seq<Tier>)
    requires Distinct(ts)
    ensures simulate ==> CleanupGroups(fmt, c, ro, simulate, ts).0 == c
    ensures !simulate && CleanupGroups(fmt, c, ro, simulate, ts).1.Pass? ==>
      forall u :: Entries(CleanupGroups(fmt, c, ro, simulate, ts).0, u) ==
        if u in ts then Filter(Entries(c, u), e => !InProgressEntry(fmt, e)) else Entries(c, u)
    decreases |ts|
  {
    if ts != [] {
      var t := ts[0];
      assert Distinct(ts[1..]);
      var first := CleanupGroup(fmt, c, ro, simulate, t);
      CleanupGroupsMeaning(fmt, first.0, ro, simulate, ts[1..]);
      if !simulate && first.1.Pass? {
        CleanupGroupStep(fmt, c, t, ro);
        assert t !in ts[1..];
      }
    }
  }

  // ---------------------------------------------------------------- backup_world

  /** The end of a failed backup run: the fail-hook runs and the error is raised again. */
  function Failing(cfg: RunnerConfig, world: string, c: CollectionDir, calls: seq<Invocation>, err: Error): Run<Outcome<Error>> {
    Run(c, calls + HookCalls(cfg.hooks.fail, world, cfg.simulate), Fail(err))
  }

  /**
   * The `try` block of `backup_world` on the prepared collection `c0`: the pre-hook, the
   * rsync run into `recent`, then the post-hook; any failure runs the fail-hook.
   */
  function BackupWorldRun(cfg: RunnerConfig, exitOf: Invocation -> int, world: string, c0: CollectionDir, text: string): Run<Outcome<Error>> {
    var pre := HookCalls(cfg.hooks.pre, world, cfg.simulate);
    if HookFails(pre, exitOf) then Failing(cfg, world, c0, pre, HookFailed("pre-backup", exitOf(pre[0])))
    else
      var run := BlockingRun(SyncFor(cfg, world, Recent), exitOf, c0, text);
      var calls := pre + run.calls;
      match run.result
      case Err(err) => Failing(cfg, world, run.coll, calls, err)
      case Ok(ok) =>
        if !ok then Failing(cfg, world, run.coll, calls, SyncFailed)
        else
          var post := HookCalls(cfg.hooks.post, world, cfg.simulate);
          if HookFails(post, exitOf) then Failing(cfg, world, run.coll, calls + post, HookFailed("post-backup", exitOf(post[0])))
          else Run(run.coll, calls + post, Pass)
  }

  /** `backup_world`: opening the collection and its `recent` group happen before the `try`. */
  function BackupWorldSpec(cfg: RunnerConfig, exitOf: Invocation -> int, m: map<string, CollectionDir>, world: string, now: DateTime): Effect {
    if cfg.readonly && world !in m then Effect(m, [], Fail(StoreReadonly))
    else
      var c0 := EnsureGroup(Opened(cfg.readonly, Coll(m, world)), Recent);
      var run := BackupWorldRun(cfg, exitOf, world, c0, BackupText(None, now, cfg.dateformat));
      Effect(m[world := run.coll], run.calls, run.result)
  }

  /**
   * The hook order of a backup run.  A run that succeeds started the pre-hook, rsync and the
   * post-hook in that order, each exiting with 0.  A run that fails started a prefix of that
   * sequence and then the fail-hook.  Simulate mode starts nothing.
   */
  lemma BackupHookOrder(cfg: RunnerConfig, exitOf: Invocation -> int, world: string, c0: CollectionDir, text: string)
    ensures var run := BackupWorldRun(cfg, exitOf, world, c0, text);
      var pre := HookCalls(cfg.hooks.pre, world, cfg.simulate);
      var sync := BlockingRun(SyncFor(cfg, world, Recent), exitOf, c0, text).calls;
      var post := HookCalls(cfg.hooks.post, world, cfg.simulate);
      var fail := HookCalls(cfg.hooks.fail, world, cfg.simulate);
      && (run.result.Pass? ==>
            run.calls == pre + sync + post && forall i :: 0 <= i < |run.calls| ==> exitOf(run.calls[i]) == 0)
      && (run.result.Pass? && !cfg.simulate ==> |sync| == 1)
      && (run.result.Fail? ==>
            |fail| <= |run.calls| && run.calls[|run.calls| - |fail|..] == fail
            && run.calls[..|run.calls| - |fail|] <= pre + sync + post)
      && (cfg.simulate ==> run.calls == [])
  {
    var pre := HookCalls(cfg.hooks.pre, world, cfg.simulate);
    var blocking := BlockingRun(SyncFor(cfg, world, Recent), exitOf, c0, text);
    var sync := blocking.calls;
    var post := HookCalls(cfg.hooks.post, world, cfg.simulate);
    var fail := HookCalls(cfg.hooks.fail, world, cfg.simulate);
    var run := BackupWorldRun(cfg, exitOf, world, c0, text);
    if cfg.simulate {
      BlockingSimulate(SyncFor(cfg, world, Recent), exitOf, c0, text);
    }
    if HookFails(pre, exitOf) {
      assert run.calls == pre + fail;
      assert pre <= pre + sync + post;
    } else if blocking.result.Err? || !blocking.result.value {
      assert run.calls == (pre + sync) + fail;
      assert pre + sync <= pre + sync + post;
    } else {
      if !cfg.simulate {
        BlockingSuccess(SyncFor(cfg, world, Recent), exitOf, c0, text);
      }
      if HookFails(post, exitOf) {
        assert run.calls == (pre + sync + post) + fail;
      } else {
        assert run.calls == pre + sync + post;
        forall i | 0 <= i < |run.calls|
          ensures exitOf(run.calls[i]) == 0
        {
          if i < |pre| {
            assert run.calls[i] == pre[i];
          } else if i < |pre| + |sync| {
            assert run.calls[i] == sync[i - |pre|];
          } else {
            assert run.calls[i] == post[i - |pre| - |sync|];
          }
        }
      }
    }
  }

  /**
   * A non-zero rsync exit status raises "Backup command failed!" after the fail-hook, skips
   * the post-hook, and leaves the new backup in progress.
   */
  lemma BackupSyncFailure(cfg: RunnerConfig, exitOf: Invocation -> int, world: string, c0: CollectionDir, text: string)
    requires !cfg.simulate
    requires !HookFails(HookCalls(cfg.hooks.pre, world, cfg.simulate), exitOf)
    requires BlockingRun(SyncFor(cfg, world, Recent), exitOf, c0, text).result == Ok(false)
    ensures var run := BackupWorldRun(cfg, exitOf, world, c0, text);
      var blocking := BlockingRun(SyncFor(cfg, world, Recent), exitOf, c0, text);
      && run.result == Fail(SyncFailed)
      && run.calls == HookCalls(cfg.hooks.pre, world, cfg.simulate) + blocking.calls + HookCalls(cfg.hooks.fail, world, cfg.simulate)
      && DirName(ComposeName(DefaultFormat(world, cfg.dateformat), text), true) in Entries(run.coll, Recent)
  {
    BlockingFailure(SyncFor(cfg, world, Recent), exitOf, c0, text);
  }

  // ---------------------------------------------------------------- rotate_backups

  /** One world of `rotate_backups`: nothing without a keep plan, else promote and then clean up. */
  function RotateWorldSpec(cfg: RunnerConfig, m: map<string, CollectionDir>, world: string, now: DateTime): Effect {
    if world !in cfg.worldconfig then Effect(m, [], Pass)
    else if cfg.readonly && world !in m then Effect(m, [], Fail(StoreReadonly))
    else
      var fmt := DefaultFormat(world, cfg.dateformat);
      var plan := cfg.worldconfig[world];
      var res := RotateCollection(fmt, Opened(cfg.readonly, Coll(m, world)), cfg.readonly, plan, cfg.simulate, now, cfg.isoWeek);
      Effect(m[world := res.0], [], res.1)
  }

  /**
   * Rotation starts no process, leaves a world without a keep plan alone, and never touches
   * another world's collection.
   */
  lemma RotateWorldMeaning(cfg: RunnerConfig, m: map<string, CollectionDir>, world: string, now: DateTime)
    ensures RotateWorldSpec(cfg, m, world, now).calls == []
    ensures world !in cfg.worldconfig ==> RotateWorldSpec(cfg, m, world, now) == Effect(m, [], Pass)
    ensures forall w :: w in m && w != world ==>
      w in RotateWorldSpec(cfg, m, world, now).colls && RotateWorldSpec(cfg, m, world, now).colls[w] == m[w]
  {
  }


  // ---------------------------------------------------------------- the loops over worlds

  /** `for world in worlds: op(world)`, stopping at the first operation that raises. */
  function ForEachWorld(op: (map<string, CollectionDir>, string) -> Effect, m: map<string, CollectionDir>, worlds: seq<string>): Effect
    decreases |worlds|
  {
    if worlds == [] then Effect(m, [], Pass)
    else
      var first := op(m, worlds[0]);
      if first.outcome.Fail? then first
      else
        var rest := ForEachWorld(op, first.colls, worlds[1..]);
        Effect(rest.colls, first.calls + rest.calls, rest.outcome)
  }

  lemma ForEachWorldStep(op: (map<string, CollectionDir>, string) -> Effect, m: map<string, CollectionDir>, worlds: seq<string>, i: nat)
    requires i < |worlds|
    ensures ForEachWorld(op, m, worlds[i..]) ==
      var first := op(m, worlds[i]);
      if first.outcome.Fail? then first
      else
        var rest := ForEachWorld(op, first.colls, worlds[i + 1..]);
        Effect(rest.colls, first.calls + rest.calls, rest.outcome)
  {
    assert worlds[i..][0] == worlds[i];
    assert worlds[i..][1..] == worlds[i + 1..];
  }

  function CleanupOp(cfg: RunnerConfig): (map<string, CollectionDir>, string) -> Effect {
    (m, w) => CleanupWorldSpec(cfg, m, w)
  }

  function BackupOp(cfg: RunnerConfig, exitOf: Invocation -> int, now: DateTime): (map<string, CollectionDir>, string) -> Effect {
    (m, w) => BackupWorldSpec(cfg, exitOf, m, w, now)
  }

  function RotateOp(cfg: RunnerConfig, now: DateTime): (map<string, CollectionDir>, string) -> Effect {
    (m, w) => RotateWorldSpec(cfg, m, w, now)
  }

  // ---------------------------------------------------------------- restore_world

  /** `restore_world`: the pre-restore hook, rsync from the backup, then the post-restore hook. */
  function RestoreRun(cfg: RunnerConfig, exitOf: Invocation -> int, world: string, b: Backup, subdirectory: string,
                      preRestore: Option<string>, postRestore: Option<string>): (seq<Invocation>, Outcome<Error>) {
    var pre := HookCalls(preRestore, world, cfg.simulate);
    if HookFails(pre, exitOf) then (pre, Fail(HookFailed("pre-restore", exitOf(pre[0]))))
    else
      var sync := if cfg.simulate then [] else [Exec(RestoreArgv(SyncFor(cfg, world, b.group), b, subdirectory))];
      if HookFails(sync, exitOf) then (pre + sync, Fail(RestoreFailed))
      else
        var post := HookCalls(postRestore, world, cfg.simulate);
        if HookFails(post, exitOf) then (pre + sync + post, Fail(HookFailed("post-restore", exitOf(post[0]))))
        else (pre + sync + post, Pass)
  }

  /**
   * A failing pre-restore hook stops the restore before rsync starts; a successful restore
   * started the pre-hook, rsync (outside simulate mode) and the post-hook in that order.
   * A restore never runs the backup fail-hook.
   */
  lemma RestoreOrder(cfg: RunnerConfig, exitOf: Invocation -> int, world: string, b: Backup, subdirectory: string,
                     preRestore: Option<string>, postRestore: Option<string>)
    ensures var (calls, outcome) := RestoreRun(cfg, exitOf, world, b, subdirectory, preRestore, postRestore);
      var pre := HookCalls(preRestore, world, cfg.simulate);
      var argv := RestoreArgv(SyncFor(cfg, world, b.group), b, subdirectory);
      && (HookFails(pre, exitOf) ==> calls == pre && outcome.Fail?)
      && (outcome.Pass? && !cfg.simulate ==>
            calls == pre + [Exec(argv)] + HookCalls(postRestore, world, cfg.simulate) && exitOf(Exec(argv)) == 0)
      && (cfg.simulate ==> calls == [] && outcome == Pass)
      && (outcome == Fail(RestoreFailed) <==> !HookFails(pre, exitOf) && !cfg.simulate && exitOf(Exec(argv)) != 0)
  {
  }

  /** A `MinecraftBackupRunner` over one store, with the process trace it appends to. */
  class MinecraftBackupRunner {
    const worldsDir: string
    const store: Store
    const procs: Processes
    const hooks: Hooks
    const simulate: bool
    const verbose: bool
    const worldconfig: map<string, Plan>
    const isoWeek: Date -> int

    constructor (worldsDir: string, store: Store, procs: Processes, hooks: Hooks, simulate: bool, verbose: bool,
                 worldconfig: map<string, Plan>, isoWeek: Date -> int)
      ensures this.worldsDir == worldsDir && this.store == store && this.procs == procs && this.hooks == hooks
      ensures this.simulate == simulate && this.verbose == verbose
      ensures this.worldconfig == worldconfig && this.isoWeek == isoWeek
    {
      this.worldsDir := worldsDir;
      this.store := store;
      this.procs := procs;
      this.hooks := hooks;
      this.simulate := simulate;
      this.verbose := verbose;
      this.worldconfig := worldconfig;
      this.isoWeek := isoWeek;
    }

    function Config(): RunnerConfig {
      RunnerConfig(store.directory, store.readonly, store.dateformat, worldsDir, hooks, simulate, verbose, worldconfig, isoWeek)
    }

    /** Starts a hook (`subprocess.call(..., shell=True)`) unless it is unconfigured or simulating; 0 when not started. */
    method RunHook(hook: Option<string>, world: string) returns (code: int)
      modifies procs
      ensures procs.trace == old(procs.trace) + HookCalls(hook, world, simulate)
      ensures code != 0 <==> HookFails(HookCalls(hook, world, simulate), procs.exitOf)
      ensures code != 0 ==> code == procs.exitOf(HookCalls(hook, world, simulate)[0])
    {
      code := 0;
      if Configured(hook) && !simulate {
        code := procs.Call(Shell(FormatCommand(hook.value, world)));
      }
    }

    /** Deletes the given backups one by one, stopping at the first that raises. */
    method DeleteEach(world: string, bs: seq<Backup>) returns (r: Outcome<Error>)
      requires world in store.collections
      modifies store
      ensures world in store.collections
      ensures store.collections == old(store.collections)[world := store.collections[world]]
      ensures (store.collections[world], r) == DeleteAll(old(store.collections)[world], bs)
    {
      for i := 0 to |bs|
        invariant world in store.collections
        invariant store.collections == old(store.collections)[world := store.collections[world]]
        invariant DeleteAll(store.collections[world], bs[i..]) == DeleteAll(old(store.collections)[world], bs)
      {
        assert bs[i..][0] == bs[i] && bs[i..][1..] == bs[i + 1..];
        var deleted := store.Delete(world, bs[i]);
        if deleted.Fail? {
          return deleted;
        }
      }
      r := Pass;
    }

    /** One group of `cleanup_world`'s loop. */
    method CleanGroup(world: string, t: Tier) returns (r: Outcome<Error>)
      requires world in store.collections
      modifies store
      ensures world in store.collections
      ensures store.collections == old(store.collections)[world := store.collections[world]]
      ensures (store.collections[world], r) ==
        CleanupGroup(store.Format(world), old(store.collections)[world], store.readonly, simulate, t)
    {
      var listed := ListInProgress(store.Format(world), store.collections[world], t, store.readonly);
      if listed.Err? {
        return Fail(listed.error);
      }
      r := Pass;
      if !simulate {
        r := DeleteEach(world, listed.value);
      }
    }

    /** The loop of `cleanup_world` over the given retain groups of an opened collection. */
    method CleanGroups(world: string, groups: seq<Tier>) returns (r: Outcome<Error>)
      requires world in store.collections
      modifies store
      ensures world in store.collections
      ensures store.collections == old(store.collections)[world := store.collections[world]]
      ensures (store.collections[world], r) ==
        CleanupGroups(store.Format(world), old(store.collections)[world], store.readonly, simulate, groups)
    {
      var fmt := store.Format(world);
      ghost var goal := CleanupGroups(fmt, store.collections[world], store.readonly, simulate, groups);
      for i := 0 to |groups|
        invariant world in store.collections
        invariant store.collections == old(store.collections)[world := store.collections[world]]
        invariant CleanupGroups(fmt, store.collections[world], store.readonly, simulate, groups[i..]) == goal
      {
        CleanupGroupsStep(fmt, store.collections[world], store.readonly, simulate, groups, i);
        ghost var before := store.collections[world];
        var cleaned := CleanGroup(world, groups[i]);
        UpdateTwice(old(store.collections), world, before, store.collections[world]);
        if cleaned.Fail? {
          return cleaned;
        }
      }
      assert groups[|groups|..] == [];
      r := Pass;
    }

    /** `cleanup_world`, proved to do what `CleanupWorldSpec` describes. */
    method CleanupWorld(world: string) returns (r: Outcome<Error>)
      modifies store
      ensures var eff := CleanupWorldSpec(Config(), old(store.collections), world);
        store.collections == eff.colls && r == eff.outcome
    {
      ghost var m0 := store.collections;
      var got := store.GetCollection(world);
      if got.Fail? {
        return got;
      }
      var c0 := store.collections[world];
      assert c0 == Opened(store.readonly, Coll(m0, world)) && store.collections == m0[world := c0];
      CleanupWorldSpecOpened(Config(), m0, world);
      r := CleanGroups(world, PresentGroups(c0));
      UpdateTwice(m0, world, c0, store.collections[world]);
    }

    /** `backup_world`, proved to do what `BackupWorldSpec` describes. */
    method BackupWorld(world: string, now: DateTime) returns (r: Outcome<Error>)
      modifies store, procs
      ensures var eff := BackupWorldSpec(Config(), procs.exitOf, old(store.collections), world, now);
        store.collections == eff.colls && procs.trace == old(procs.trace) + eff.calls && r == eff.outcome
    {
      ghost var m0 := store.collections;
      var got := store.GetCollection(world);
      if got.Fail? {
        return got;
      }
      ghost var c0 := store.collections[world];
      assert c0 == Opened(store.readonly, Coll(m0, world)) && store.collections == m0[world := c0];
      var group := store.GetRetainGroup(world, "recent");
      assert group == Ok(Recent);
      UpdateTwice(m0, world, c0, store.collections[world]);
      ghost var c1 := store.collections[world];
      r := BackupTry(world, now);
      UpdateTwice(m0, world, c1, store.collections[world]);
    }

    /** The `try` block of `backup_world`, on a collection whose `recent` group is open. */
    method BackupTry(world: string, now: DateTime) returns (r: Outcome<Error>)
      requires world in store.collections
      modifies store, procs
      ensures var run := BackupWorldRun(Config(), procs.exitOf, world, old(store.collections)[world], BackupText(None, now, store.dateformat));
        && store.collections == old(store.collections)[world := run.coll]
        && procs.trace == old(procs.trace) + run.calls
        && r == run.result
    {
      ghost var t0, c0 := procs.trace, store.collections[world];
      ghost var text := BackupText(None, now, store.dateformat);
      var runner := new RsyncCommand(PathJoin(worldsDir, world), store, procs, world, Recent, simulate, verbose, []);
      assert runner.Config() == SyncFor(Config(), world, Recent);
      var pre := RunHook(hooks.pre, world);
      ghost var done := HookCalls(hooks.pre, world, simulate);
      ghost var c := c0;
      var failure: Error;
      if pre != 0 {
        failure := HookFailed("pre-backup", pre);
      } else {
        ghost var run := BlockingRun(SyncFor(Config(), world, Recent), procs.exitOf, c0, text);
        var ret := runner.RunBlocking(None, now);
        AppendAssoc(t0, done, run.calls);
        done, c := done + run.calls, run.coll;
        if ret.Err? {
          failure := ret.error;
        } else if !ret.value {
          failure := SyncFailed;
        } else {
          ghost var post := HookCalls(hooks.post, world, simulate);
          var code := RunHook(hooks.post, world);
          AppendAssoc(t0, done, post);
          done := done + post;
          if code == 0 {
            return Pass;
          }
          failure := HookFailed("post-backup", code);
        }
      }
      assert BackupWorldRun(Config(), procs.exitOf, world, c0, text) == Failing(Config(), world, c, done, failure);
      var _ := RunHook(hooks.fail, world);
      AppendAssoc(t0, done, HookCalls(hooks.fail, world, simulate));
      r := Fail(failure);
    }

    /** `restore_world` for a backup of collection `world`, proved to do what `RestoreRun` describes. */
    method RestoreWorld(world: string, b: Backup, subdirectory: string, preRestore: Option<string>, postRestore: Option<string>)
      returns (r: Outcome<Error>)
      modifies procs
      ensures var (calls, outcome) := RestoreRun(Config(), procs.exitOf, world, b, subdirectory, preRestore, postRestore);
        procs.trace == old(procs.trace) + calls && r == outcome
    {
      var runner := new RsyncCommand(PathJoin(worldsDir, world), store, procs, world, b.group, simulate, verbose, []);
      assert runner.Config() == SyncFor(Config(), world, b.group);
      var pre := RunHook(preRestore, world);
      if pre != 0 {
        return Fail(HookFailed("pre-restore", pre));
      }
      var ok := runner.RunRestore(b, subdirectory);
      if !ok {
        return Fail(RestoreFailed);
      }
      var post := RunHook(postRestore, world);
      if post != 0 {
        return Fail(HookFailed("post-restore", post));
      }
      r := Pass;
    }

    /** `cleanup_worlds`. */
    method CleanupWorlds(worlds: seq<string>) returns (r: Outcome<Error>)
      modifies store
      ensures var eff := ForEachWorld(CleanupOp(Config()), old(store.collections), worlds);
        store.collections == eff.colls && r == eff.outcome
    {
      var op := CleanupOp(Config());
      ghost var goal := ForEachWorld(op, store.collections, worlds);
      for i := 0 to |worlds|
        invariant ForEachWorld(op, store.collections, worlds[i..]).colls == goal.colls
        invariant ForEachWorld(op, store.collections, worlds[i..]).outcome == goal.outcome
      {
        ForEachWorldStep(op, store.collections, worlds, i);
        var cleaned := CleanupWorld(worlds[i]);
        if cleaned.Fail? {
          return cleaned;
        }
      }
      r := Pass;
    }

    /** `backup_worlds`. */
    method BackupWorlds(worlds: seq<string>, now: DateTime) returns (r: Outcome<Error>)
      modifies store, procs
      ensures var eff := ForEachWorld(BackupOp(Config(), procs.exitOf, now), old(store.collections), worlds);
        store.collections == eff.colls && procs.trace == old(procs.trace) + eff.calls && r == eff.outcome
    {
      var op := BackupOp(Config(), procs.exitOf, now);
      ghost var goal := ForEachWorld(op, store.collections, worlds);
      ghost var done: seq<Invocation> := [];
      for i := 0 to |worlds|
        invariant procs.trace == old(procs.trace) + done
        invariant var rest := ForEachWorld(op, store.collections, worlds[i..]);
          goal == Effect(rest.colls, done + rest.calls, rest.outcome)
      {
        ForEachWorldStep(op, store.collections, worlds, i);
        ghost var first := op(store.collections, worlds[i]);
        var backed := BackupWorld(worlds[i], now);
        AppendAssoc(old(procs.trace), done, first.calls);
        AppendAssoc(done, first.calls, ForEachWorld(op, store.collections, worlds[i + 1..]).calls);
        done := done + first.calls;
        if backed.Fail? {
          return backed;
        }
      }
      r := Pass;
    }

    /** One world of `rotate_backups`, proved to do what `RotateWorldSpec` describes. */
    method RotateWorld(world: string, now: DateTime) returns (r: Outcome<Error>)
      modifies store
      ensures var eff := RotateWorldSpec(Config(), old(store.collections), world, now);
        store.collections == eff.colls && r == eff.outcome
    {
      if world !in worldconfig {
        return Pass;
      }
      ghost var m0 := store.collections;
      var got := store.GetCollection(world);
      if got.Fail? {
        return got;
      }
      var c0 := store.collections[world];
      assert c0 == Opened(store.readonly, Coll(m0, world)) && store.collections == m0[world := c0];
      var rotation := new Rotation(store, world, worldconfig[world], simulate, isoWeek);
      r := rotation.Rotate(now);
      UpdateTwice(m0, world, c0, store.collections[world]);
    }

    /** `rotate_backups`: promote and clean up every world that has a keep plan. */
    method RotateBackups(worlds: seq<string>, now: DateTime) returns (r: Outcome<Error>)
      modifies store
      ensures var eff := ForEachWorld(RotateOp(Config(), now), old(store.collections), worlds);
        store.collections == eff.colls && r == eff.outcome
    {
      var op := RotateOp(Config(), now);
      ghost var goal := ForEachWorld(op, store.collections, worlds);
      for i := 0 to |worlds|
        invariant ForEachWorld(op, store.collections, worlds[i..]).colls == goal.colls
        invariant ForEachWorld(op, store.collections, worlds[i..]).outcome == goal.outcome
      {
        ForEachWorldStep(op, store.collections, worlds, i);
        var rotated := RotateWorld(worlds[i], now);
        if rotated.Fail? {
          return rotated;
        }
      }
      r := Pass;
    }
  }
}

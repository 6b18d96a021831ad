/**
 * `MinecraftBackupRoll`: the pid-file lock around an activity (cleanup, backup, rotation).
 * The pid file is `None` when absent and otherwise holds its text; whether a process is
 * alive is asked of a probe (`os.kill(pid, 0)`), which is a parameter of the model.
 */
module Roll {
  import opened Wrappers
  import opened Calendar
  import opened BackupStore
  import opened Sync
  import opened Runner

  // ---------------------------------------------------------------- int() and str() on pids

  /** The whitespace that `int()` strips from both ends of its argument. */
  predicate IsSpace(c: char) {
    c == ' ' || c == '\t' || c == '\n' || c == '\r' || c as int == 11 || c as int == 12
  }

  /** `r` is `s` with some whitespace, and only whitespace, cut off at each end. */
  predicate TrimmedSlice(s: string, r: string) {
    exists i, j :: 0 <= i <= j <= |s| && r == s[i..j]
      && (forall k :: 0 <= k < i ==> IsSpace(s[k])) && (forall k :: j <= k < |s| ==> IsSpace(s[k]))
  }

  /** Cutting one more whitespace character off the front keeps `r` a trimmed slice. */
  lemma TrimmedAfterFront(s: string, r: string)
    requires |s| > 0 && IsSpace(s[0]) && TrimmedSlice(s[1..], r)
    ensures TrimmedSlice(s, r)
  {
    var i, j :| 0 <= i <= j <= |s[1..]| && r == s[1..][i..j]
      && (forall k :: 0 <= k < i ==> IsSpace(s[1..][k])) && (forall k :: j <= k < |s[1..]| ==> IsSpace(s[1..][k]));
    assert s[1..][i..j] == s[i + 1..j + 1];
    assert forall k :: 0 <= k < i + 1 ==> IsSpace(s[k]) by {
      forall k | 0 <= k < i + 1 ensures IsSpace(s[k]) {
        if k > 0 { assert s[k] == s[1..][k - 1]; }
      }
    }
    assert forall k :: j + 1 <= k < |s| ==> IsSpace(s[k]) by {
      forall k | j + 1 <= k < |s| ensures IsSpace(s[k]) {
        assert s[k] == s[1..][k - 1];
      }
    }
  }

  /** Cutting one more whitespace character off the back keeps `r` a trimmed slice. */
  lemma TrimmedBeforeBack(s: string, r: string)
    requires |s| > 0 && IsSpace(s[|s| - 1]) && TrimmedSlice(s[..|s| - 1], r)
    ensures TrimmedSlice(s, r)
  {
    var t := s[..|s| - 1];
    var i, j :| 0 <= i <= j <= |t| && r == t[i..j]
      && (forall k :: 0 <= k < i ==> IsSpace(t[k])) && (forall k :: j <= k < |t| ==> IsSpace(t[k]));
    assert t[i..j] == s[i..j];
    assert forall k :: 0 <= k < i ==> IsSpace(s[k]) by {
      forall k | 0 <= k < i ensures IsSpace(s[k]) {
        assert s[k] == t[k];
      }
    }
    assert forall k :: j <= k < |s| ==> IsSpace(s[k]) by {
      forall k | j <= k < |s| ensures IsSpace(s[k]) {
        if k < |t| { assert s[k] == t[k]; }
      }
    }
  }

  /** `s.strip()`: leading and trailing whitespace removed. */
  function Strip(s: string): (r: string)
    ensures |r| <= |s|
    ensures |r| > 0 ==> !IsSpace(r[0]) && !IsSpace(r[|r| - 1])
    ensures |s| > 0 && !IsSpace(s[0]) && !IsSpace(s[|s| - 1]) ==> r == s
    ensures TrimmedSlice(s, r)
    decreases |s|
  {
    if |s| > 0 && IsSpace(s[0]) then
      var r := Strip(s[1..]);
      TrimmedAfterFront(s, r);
      r
    else if |s| > 0 && IsSpace(s[|s| - 1]) then
      var r := Strip(s[..|s| - 1]);
      TrimmedBeforeBack(s, r);
      r
    else
      assert s == s[0..|s|];
      s
  }

  predicate IsDigit(c: char) {
    '0' <= c <= '9'
  }

  predicate AllDigits(s: string) {
    forall i :: 0 <= i < |s| ==> IsDigit(s[i])
  }

  /** The value of a string of decimal digits, most significant first. */
  function DigitsValue(s: string): nat
    requires AllDigits(s)
  {
    if s == [] then 0 else DigitsValue(s[..|s| - 1]) * 10 + (s[|s| - 1] as int - '0' as int)
  }

  /** `int(text)` for a pid file's contents: `None` where `int()` raises `ValueError`. */
  function ParseInt(text: string): Option<int> {
    var t := Strip(text);
    var signed := |t| > 0 && (t[0] == '-' || t[0] == '+');
    var digits := if signed then t[1..] else t;
    if |digits| > 0 && AllDigits(digits) then
      var value: int := DigitsValue(digits);
      Some(if signed && t[0] == '-' then -value else value)
    else
      None
  }

  function Digit(d: nat): char
    requires d < 10
  {
    ('0' as int + d) as char
  }

  /** `str(n)` for a natural number: its decimal digits, without leading zeros. */
  function ShowNat(n: nat): (r: string)
    decreases n
  {
    if n < 10 then [Digit(n)] else ShowNat(n / 10) + [Digit(n % 10)]
  }

  /** `str(n)`. */
  function ShowInt(n: int): string {
    if n < 0 then "-" + ShowNat(-n) else ShowNat(n)
  }

  lemma {:induction false} ShowNatDigits(n: nat)
    ensures |ShowNat(n)| > 0 && AllDigits(ShowNat(n))
    ensures DigitsValue(ShowNat(n)) == n
    decreases n
  {
    if n >= 10 {
      ShowNatDigits(n / 10);
      var s := ShowNat(n);
      assert s[..|s| - 1] == ShowNat(n / 10);
    }
  }

  /** `str()` of a pid is an optional minus sign and digits, with nothing for `strip()` to remove. */
  lemma ShowIntStripped(n: int)
    ensures var s := ShowInt(n);
      && |s| > 0 && Strip(s) == s
      && (n < 0 ==> s[0] == '-' && s[1..] == ShowNat(-n))
      && (n >= 0 ==> s == ShowNat(n))
  {
    var s := ShowInt(n);
    var d := if n < 0 then ShowNat(-n) else ShowNat(n);
    ShowNatDigits(if n < 0 then -n else n);
    assert IsDigit(d[0]) && IsDigit(d[|d| - 1]);
    if n < 0 {
      assert s[1..] == d;
      assert s[|s| - 1] == d[|d| - 1];
    }
    assert !IsSpace(s[0]) && !IsSpace(s[|s| - 1]);
  }

  /** The pid written by `str(os.getpid())` reads back as the same number. */
  lemma ParseShowInt(n: int)
    ensures ParseInt(ShowInt(n)) == Some(n)
  {
    ShowIntStripped(n);
    if n < 0 {
      ShowNatDigits(-n);
    } else {
      ShowNatDigits(n);
    }
  }

  /** A trailing newline, as an editor would leave it, does not change the pid read. */
  lemma ParseShowIntNewline(n: int)
    ensures ParseInt(ShowInt(n) + "\n") == Some(n)
  {
    var s := ShowInt(n);
    var t := s + "\n";
    ShowIntStripped(n);
    assert t[..|t| - 1] == s;
    assert t[0] == s[0];
    assert !IsSpace(s[0]);
    assert Strip(t) == s;
    ParseShowInt(n);
  }

  // ---------------------------------------------------------------- the lock

  /** What `os.kill(pid, 0)` reports: the process runs, does not exist, or may not be signalled. */
  datatype Probe = Alive | NoSuchProcess | Denied

  /** The liveness check of `_try_lock`: only a pid other than 0 is probed; `PermissionError` escapes. */
  function PidAlive(pid: Option<int>, probe: int -> Probe): Result<bool, Error> {
    if pid.Some? && pid.value != 0 then
      match probe(pid.value)
      case Alive => Ok(true)
      case NoSuchProcess => Ok(false)
      case Denied => Err(PermissionDenied)
    else Ok(false)
  }

  /**
   * `_try_lock`: a live holder makes it return `False`; otherwise the exclusive create of the
   * pid file decides, and it fails whenever the file exists, stale or not.
   */
  function TryLockOutcome(pidFile: Option<string>, probe: int -> Probe): Result<bool, Error> {
    var alive := if pidFile.Some? then PidAlive(ParseInt(pidFile.value), probe) else Ok(false);
    if alive.Err? then alive
    else if alive.value then Ok(false)
    else Ok(pidFile.None?)
  }

  /** The lock is taken exactly when there was no pid file, whatever it held and whatever the probe says. */
  lemma TryLockOnlyWhenAbsent(pidFile: Option<string>, probe: int -> Probe)
    ensures TryLockOutcome(pidFile, probe) == Ok(true) <==> pidFile.None?
    ensures TryLockOutcome(pidFile, probe).Err? ==> TryLockOutcome(pidFile, probe) == Err(PermissionDenied)
  {
  }

  /** A second roll sees the pid that the lock holder wrote, and a live holder keeps it out. */
  lemma LiveHolderBlocks(holder: int, probe: int -> Probe)
    requires holder != 0 && probe(holder) == Alive
    ensures PidAlive(ParseInt(ShowInt(holder)), probe) == Ok(true)
    ensures TryLockOutcome(Some(ShowInt(holder)), probe) == Ok(false)
  {
    ParseShowInt(holder);
  }

  /** A pid file left by a process that has gone away still keeps every later roll out. */
  lemma StaleFileBlocks(holder: int, probe: int -> Probe)
    requires probe(holder) == NoSuchProcess
    ensures PidAlive(ParseInt(ShowInt(holder)), probe) == Ok(false)
    ensures TryLockOutcome(Some(ShowInt(holder)), probe) == Ok(false)
  {
    ParseShowInt(holder);
  }

  /** The error `do_activity` and `_force_lock_now` raise for a lock attempt, or `Pass` when locked. */
  function LockOutcome(attempt: Result<bool, Error>): (r: Outcome<Error>)
    ensures r.Pass? <==> attempt == Ok(true)
    ensures attempt == Ok(false) ==> r == Fail(LockHeld)
    ensures attempt.Err? ==> r == Fail(attempt.error)
  {
    match attempt
    case Err(e) => Fail(e)
    case Ok(locked) => if locked then Pass else Fail(LockHeld)
  }

  // ---------------------------------------------------------------- do_activity

  /** An activity's operations that did nothing. */
  function Idle(m: map<string, CollectionDir>): Effect {
    Effect(m, [], Pass)
  }

  /** The `try` block of `do_activity`: cleanup, backup, rotation, each over all worlds, stopping at the first that raises. */
  function ActivityRun(cfg: RunnerConfig, exitOf: Invocation -> int, now: DateTime, m: map<string, CollectionDir>,
                       worlds: seq<string>, doCleanup: bool, doBackup: bool, doRotation: bool): Effect {
    var cleaned := if doCleanup then ForEachWorld(CleanupOp(cfg), m, worlds) else Idle(m);
    if cleaned.outcome.Fail? then cleaned
    else
      var backed := if doBackup then ForEachWorld(BackupOp(cfg, exitOf, now), cleaned.colls, worlds) else Idle(cleaned.colls);
      if backed.outcome.Fail? then backed
      else
        var rotated := if doRotation then ForEachWorld(RotateOp(cfg, now), backed.colls, worlds) else Idle(backed.colls);
        Effect(rotated.colls, backed.calls + rotated.calls, rotated.outcome)
  }

  /** An operation over worlds that starts no process, applied world after world, starts none. */
  lemma {:induction false} ForEachWorldSilent(op: (map<string, CollectionDir>, string) -> Effect, m: map<string, CollectionDir>, worlds: seq<string>)
    requires forall m', w :: op(m', w).calls == []
    ensures ForEachWorld(op, m, worlds).calls == []
    decreases |worlds|
  {
    if worlds != [] {
      var first := op(m, worlds[0]);
      if first.outcome.Pass? {
        ForEachWorldSilent(op, first.colls, worlds[1..]);
      }
    }
  }

  /** Only the backup part of an activity starts processes: cleanup and rotation run none. */
  lemma ActivityCallsAreBackupCalls(cfg: RunnerConfig, exitOf: Invocation -> int, now: DateTime, m: map<string, CollectionDir>,
                                    worlds: seq<string>, doCleanup: bool, doBackup: bool, doRotation: bool)
    ensures var cleaned := if doCleanup then ForEachWorld(CleanupOp(cfg), m, worlds) else Idle(m);
      ActivityRun(cfg, exitOf, now, m, worlds, doCleanup, doBackup, doRotation).calls ==
        if cleaned.outcome.Pass? && doBackup then ForEachWorld(BackupOp(cfg, exitOf, now), cleaned.colls, worlds).calls else []
    ensures !doBackup ==> ActivityRun(cfg, exitOf, now, m, worlds, doCleanup, doBackup, doRotation).calls == []
  {
    CleanupStartsNothing(cfg, m, worlds);
    var cleaned := if doCleanup then ForEachWorld(CleanupOp(cfg), m, worlds) else Idle(m);
    var backed := if doBackup then ForEachWorld(BackupOp(cfg, exitOf, now), cleaned.colls, worlds) else Idle(cleaned.colls);
    RotationStartsNothing(cfg, now, backed.colls, worlds);
  }

  lemma CleanupStartsNothing(cfg: RunnerConfig, m: map<string, CollectionDir>, worlds: seq<string>)
    ensures ForEachWorld(CleanupOp(cfg), m, worlds).calls == []
  {
    assert forall m', w :: CleanupOp(cfg)(m', w).calls == [];
    ForEachWorldSilent(CleanupOp(cfg), m, worlds);
  }

  lemma RotationStartsNothing(cfg: RunnerConfig, now: DateTime, m: map<string, CollectionDir>, worlds: seq<string>)
    ensures ForEachWorld(RotateOp(cfg, now), m, worlds).calls == []
  {
    assert forall m', w :: RotateOp(cfg, now)(m', w).calls == [];
    ForEachWorldSilent(RotateOp(cfg, now), m, worlds);
  }

  /** An activity that asks for nothing changes nothing. */
  lemma ActivityNothing(cfg: RunnerConfig, exitOf: Invocation -> int, now: DateTime, m: map<string, CollectionDir>, worlds: seq<string>)
    ensures ActivityRun(cfg, exitOf, now, m, worlds, false, false, false) == Effect(m, [], Pass)
  {
  }

  // ---------------------------------------------------------------- the roll object

  class MinecraftBackupRoll {
    const usePidFile: bool
    const pidPath: string
    const myPid: int
    const probe: int -> Probe
    const runner: MinecraftBackupRunner
    const selectedWorlds: seq<string>
    /** The pid file: absent, or the text it holds. */
    var pidFile: Option<string>
    var locked: bool

    /** A roll starts unlocked; the pid file is whatever the filesystem holds. */
    constructor (usePidFile: bool, pidPath: string, myPid: int, probe: int -> Probe, runner: MinecraftBackupRunner,
                 selectedWorlds: seq<string>, pidFile: Option<string>)
      ensures this.usePidFile == usePidFile && this.pidPath == pidPath && this.myPid == myPid && this.probe == probe
      ensures this.runner == runner && this.selectedWorlds == selectedWorlds
      ensures this.pidFile == pidFile && !locked
    {
      this.usePidFile := usePidFile;
      this.pidPath := pidPath;
      this.myPid := myPid;
      this.probe := probe;
      this.runner := runner;
      this.selectedWorlds := selectedWorlds;
      this.pidFile := pidFile;
      this.locked := false;
    }

    /** `_try_lock`: on success the pid file holds our pid and `locked` is set; otherwise nothing changes. */
    method TryLock() returns (r: Result<bool, Error>)
      modifies this
      ensures r == TryLockOutcome(old(pidFile), probe)
      ensures r == Ok(true) <==> old(pidFile).None?
      ensures r == Ok(true) ==> pidFile == Some(ShowInt(myPid)) && locked
      ensures r != Ok(true) ==> pidFile == old(pidFile) && locked == old(locked)
    {
      if pidFile.Some? {
        var pid := ParseInt(pidFile.value);
        if pid.Some? && pid.value != 0 {
          match probe(pid.value)
          case Alive =>
            return Ok(false);
          case Denied =>
            return Err(PermissionDenied);
          case NoSuchProcess =>
        }
      }
      if pidFile.Some? {
        return Ok(false);
      }
      pidFile := Some(ShowInt(myPid));
      locked := true;
      r := Ok(true);
    }

    /** `_unlock`: removes the pid file when locked, raises otherwise; `locked` is never reset. */
    method Unlock() returns (r: Outcome<Error>)
      modifies this
      ensures locked == old(locked)
      ensures !old(locked) ==> r == Fail(NotLocked) && pidFile == old(pidFile)
      ensures old(locked) && old(pidFile).Some? ==> r == Pass && pidFile == None
      ensures old(locked) && old(pidFile).None? ==> r == Fail(FileNotFound(pidPath)) && pidFile == None
    {
      if !locked {
        return Fail(NotLocked);
      }
      if pidFile.None? {
        return Fail(FileNotFound(pidPath));
      }
      pidFile := None;
      r := Pass;
    }

    /** `_force_lock_now`: raises for a readonly roll and when the lock cannot be taken. */
    method ForceLockNow() returns (r: Outcome<Error>)
      modifies this
      ensures !usePidFile ==> r == Fail(ReadonlyRoll) && pidFile == old(pidFile) && locked == old(locked)
      ensures usePidFile ==> r == LockOutcome(TryLockOutcome(old(pidFile), probe))
      ensures r.Pass? ==> old(pidFile).None? && pidFile == Some(ShowInt(myPid)) && locked
      ensures r.Fail? ==> pidFile == old(pidFile) && locked == old(locked)
    {
      if !usePidFile {
        return Fail(ReadonlyRoll);
      }
      var attempt := TryLock();
      r := LockOutcome(attempt);
    }

    /**
     * `do_activity`: refuses a readonly roll and a held lock; otherwise runs the requested
     * operations over the selected worlds and then always removes the pid file again.
     */
    method DoActivity(doCleanup: bool, doBackup: bool, doRotation: bool, now: DateTime) returns (r: Outcome<Error>)
      modifies this, runner.store, runner.procs
      ensures !usePidFile || old(pidFile).Some? ==>
        && r == (if usePidFile then LockOutcome(TryLockOutcome(old(pidFile), probe)) else Fail(ReadonlyRoll))
        && pidFile == old(pidFile) && locked == old(locked)
        && runner.store.collections == old(runner.store.collections) && runner.procs.trace == old(runner.procs.trace)
      ensures usePidFile && old(pidFile).None? ==>
        var eff := ActivityRun(runner.Config(), runner.procs.exitOf, now, old(runner.store.collections), selectedWorlds,
                               doCleanup, doBackup, doRotation);
        && runner.store.collections == eff.colls
        && runner.procs.trace == old(runner.procs.trace) + eff.calls
        && r == eff.outcome
        && pidFile.None? && locked
    {
      if !usePidFile {
        return Fail(ReadonlyRoll);
      }
      var attempt := TryLock();
      if attempt != Ok(true) {
        return LockOutcome(attempt);
      }
      r := RunActivity(doCleanup, doBackup, doRotation, now);
      var unlocked := Unlock();
      r := if unlocked.Fail? then unlocked else r;
    }

    /** The `try` block of `do_activity`. */
    method RunActivity(doCleanup: bool, doBackup: bool, doRotation: bool, now: DateTime) returns (r: Outcome<Error>)
      modifies runner.store, runner.procs
      ensures var eff := ActivityRun(runner.Config(), runner.procs.exitOf, now, old(runner.store.collections), selectedWorlds,
                                     doCleanup, doBackup, doRotation);
        && runner.store.collections == eff.colls
        && runner.procs.trace == old(runner.procs.trace) + eff.calls
        && r == eff.outcome
    {
      ghost var t0 := runner.procs.trace;
      ghost var cfg := runner.Config();
      CleanupStartsNothing(cfg, runner.store.collections, selectedWorlds);
      r := Pass;
      if doCleanup {
        r := runner.CleanupWorlds(selectedWorlds);
      }
      if r.Fail? {
        return;
      }
      ghost var backed := Idle(runner.store.collections);
      if doBackup {
        backed := ForEachWorld(BackupOp(runner.Config(), runner.procs.exitOf, now), runner.store.collections, selectedWorlds);
        r := runner.BackupWorlds(selectedWorlds, now);
      }
      if r.Fail? {
        return;
      }
      ghost var rotated := Idle(runner.store.collections);
      if doRotation {
        rotated := ForEachWorld(RotateOp(cfg, now), runner.store.collections, selectedWorlds);
        RotationStartsNothing(cfg, now, runner.store.collections, selectedWorlds);
        r := runner.RotateBackups(selectedWorlds, now);
      }
      AppendAssoc(t0, backed.calls, rotated.calls);
    }
  }
}

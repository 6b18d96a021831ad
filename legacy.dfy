/**
 * The legacy roll script: the same retention policy over single archive files.  Backups
 * are files `<prefix><timestamp><suffix>` in the world's backup directory (the `recent`
 * tier) and in its `daily`, `weekly` and `monthly` subdirectories; promotion hard-links a
 * file into the next directory and eviction removes files.  The disk is a map from a
 * directory path to the names of the regular files in it, in listing order.
 */
module Legacy {
  import opened Wrappers
  import opened Calendar
  import opened Seqs
  import opened Policy
  import opened BackupStore
  import opened Rotation
  import opened Sync
  import Runner

  /** A directory path mapped to the regular files it holds; a missing key is a missing directory. */
  type Files = map<string, seq<string>>

  /** `BackupFile`: where the file is, its name, and the timestamp its name parses to. */
  datatype BackupFile = BackupFile(basedir: string, filename: string, stamp: DateTime)

  function FileStamp(b: BackupFile): DateTime {
    b.stamp
  }

  /** `BackupFile.path`. */
  function FilePath(b: BackupFile): string {
    PathJoin(b.basedir, b.filename)
  }

  /** The settings of one `BackupRoll`. */
  datatype RollConfig = RollConfig(backupdir: string, prefix: string, suffix: string, dateformat: DateFormat,
                                   keep: Plan, simulate: bool, isoWeek: Date -> int)

  // ---------------------------------------------------------------- BackupFile.datetime

  /** The text `BackupFile.datetime` hands to `strptime`: `filename[len(prefix):-len(suffix)]`. */
  function DateText(filename: string, prefix: string, suffix: string): string {
    PySlice(filename, |prefix|, -|suffix|)
  }

  /** With a non-empty suffix the slice recovers the timestamp text between prefix and suffix. */
  lemma DateTextOfName(prefix: string, text: string, suffix: string)
    requires suffix != ""
    ensures DateText(prefix + text + suffix, prefix, suffix) == text
  {
    var name := prefix + text + suffix;
    assert name[|prefix|..|name| - |suffix|] == text;
  }

  /** With an empty suffix the slice is `[len(prefix):-0]`, which is always empty. */
  lemma DateTextEmptySuffix(filename: string, prefix: string)
    ensures DateText(filename, prefix, "") == ""
  {
  }

  // ---------------------------------------------------------------- listings

  /** `os.path.join(backupdir, <tier>)`; `recent` is the backup directory itself. */
  function TierDir(cfg: RollConfig, t: Tier): string {
    if t == Recent then cfg.backupdir else PathJoin(cfg.backupdir, TierName(t))
  }

  /** `os.listdir(folder)`, where a missing folder lists nothing. */
  function Listing(fs: Files, dir: string): seq<string> {
    if dir in fs then fs[dir] else []
  }

  /** The file-name filter of `list_backups_from`. */
  predicate Candidate(cfg: RollConfig, f: string) {
    cfg.prefix <= f && EndsWith(f, cfg.suffix)
  }

  /** The files as `BackupFile`s; sorting reads every `datetime`, so one that does not parse raises. */
  function ParseFiles(cfg: RollConfig, dir: string, names: seq<string>): Result<seq<BackupFile>, Error>
    decreases |names|
  {
    if names == [] then Ok([])
    else
      match cfg.dateformat.parse(DateText(names[0], cfg.prefix, cfg.suffix))
      case None => Err(MalformedName(names[0]))
      case Some(stamp) =>
        var rest :- ParseFiles(cfg, dir, names[1..]);
        Ok([BackupFile(dir, names[0], stamp)] + rest)
  }

  /** Parsing keeps the files in order, each with the timestamp its name parses to. */
  lemma {:induction false} ParseFilesMeaning(cfg: RollConfig, dir: string, names: seq<string>)
    requires ParseFiles(cfg, dir, names).Ok?
    ensures var bs := ParseFiles(cfg, dir, names).value;
      && |bs| == |names|
      && forall i :: 0 <= i < |names| ==>
        (bs[i] == BackupFile(dir, names[i], bs[i].stamp)
         && cfg.dateformat.parse(DateText(names[i], cfg.prefix, cfg.suffix)) == Some(bs[i].stamp))
    decreases |names|
  {
    if names != [] {
      ParseFilesMeaning(cfg, dir, names[1..]);
    }
  }

  /** `list_backups_from(folder)`: matching files, ascending by timestamp. */
  function ListBackupsFrom(cfg: RollConfig, fs: Files, dir: string): Result<seq<BackupFile>, Error> {
    var parsed :- ParseFiles(cfg, dir, Filter(Listing(fs, dir), f => Candidate(cfg, f)));
    Ok(SortBy(parsed, FileStamp))
  }

  /** `list_backups_recent`, `list_backups_daily`, `list_backups_weekly`, `list_backups_monthly`. */
  function ListTier(cfg: RollConfig, fs: Files, t: Tier): Result<seq<BackupFile>, Error> {
    ListBackupsFrom(cfg, fs, TierDir(cfg, t))
  }

  /** Every listed backup is a matching file of the folder, with the timestamp its name parses to. */
  lemma ListedFile(cfg: RollConfig, fs: Files, dir: string, b: BackupFile)
    requires ListBackupsFrom(cfg, fs, dir).Ok? && b in ListBackupsFrom(cfg, fs, dir).value
    ensures b.basedir == dir && b.filename in Listing(fs, dir) && Candidate(cfg, b.filename)
    ensures cfg.dateformat.parse(DateText(b.filename, cfg.prefix, cfg.suffix)) == Some(b.stamp)
  {
    var names := Filter(Listing(fs, dir), f => Candidate(cfg, f));
    FilterMeaning(Listing(fs, dir), f => Candidate(cfg, f));
    var parsed := ParseFiles(cfg, dir, names).value;
    ParseFilesMeaning(cfg, dir, names);
    SortByMeaning(parsed, FileStamp);
    assert b in multiset(SortBy(parsed, FileStamp));
    assert b in parsed;
    var i :| 0 <= i < |parsed| && parsed[i] == b;
    assert names[i] in names;
  }

  /** The listing is ascending by timestamp and leaves out no matching file of the folder. */
  lemma ListBackupsFromMeaning(cfg: RollConfig, fs: Files, dir: string)
    requires ListBackupsFrom(cfg, fs, dir).Ok?
    ensures SortedBy(ListBackupsFrom(cfg, fs, dir).value, FileStamp)
    ensures forall f :: f in Listing(fs, dir) && Candidate(cfg, f) ==>
      exists b :: b in ListBackupsFrom(cfg, fs, dir).value && b.filename == f
  {
    var names := Filter(Listing(fs, dir), f => Candidate(cfg, f));
    FilterMeaning(Listing(fs, dir), f => Candidate(cfg, f));
    var parsed := ParseFiles(cfg, dir, names).value;
    ParseFilesMeaning(cfg, dir, names);
    SortByMeaning(parsed, FileStamp);
    var sorted := ListBackupsFrom(cfg, fs, dir).value;
    forall f | f in Listing(fs, dir) && Candidate(cfg, f)
      ensures exists b :: b in sorted && b.filename == f
    {
      assert f in names;
      var i :| 0 <= i < |names| && names[i] == f;
      assert parsed[i] in multiset(parsed);
      assert parsed[i] in sorted;
    }
  }

  // ---------------------------------------------------------------- select_promote_*

  /** The loop of `select_promote_daily_backup`: every backup before 13:00 replaces the selection. */
  function DailyFold(bs: seq<BackupFile>, selected: BackupFile): BackupFile
    decreases |bs|
  {
    if bs == [] then selected
    else DailyFold(bs[1..], if bs[0].stamp.hour < 13 then bs[0] else selected)
  }

  /** `select_promote_daily_backup`: keep the day's backups, start from the first, let each morning one replace it. */
  function SelectPromoteDaily(bs: seq<BackupFile>, date: Date): Option<BackupFile> {
    var onDate := Filter(bs, (b: BackupFile) => DateOf(b.stamp) == date);
    if |onDate| >= 1 then Some(DailyFold(onDate, onDate[0])) else None
  }

  /** A comprehension followed by "the first element, if any". */
  function SelectFirst(bs: seq<BackupFile>, p: BackupFile -> bool): Option<BackupFile> {
    var matching := Filter(bs, p);
    if |matching| >= 1 then Some(matching[0]) else None
  }

  /** `select_promote_weekly_backup`: the first backup of the ISO week number; the year is not compared. */
  function SelectPromoteWeekly(bs: seq<BackupFile>, date: Date, isoWeek: Date -> int): Option<BackupFile> {
    SelectFirst(bs, (b: BackupFile) => isoWeek(DateOf(b.stamp)) == isoWeek(date))
  }

  /** `select_promote_monthly_backup`: the first backup of the month; the year is not compared. */
  function SelectPromoteMonthly(bs: seq<BackupFile>, date: Date): Option<BackupFile> {
    SelectFirst(bs, (b: BackupFile) => b.stamp.month == date.month)
  }

  /**
   * The timestamps of a listing, the sequence the shared rules of `Policy` are stated on.
   * `Rotation.Stamps` is the same projection for the core's `Backup` records.
   */
  function FileStamps(bs: seq<BackupFile>): (s: seq<DateTime>)
    ensures |s| == |bs| && forall i :: 0 <= i < |bs| ==> s[i] == bs[i].stamp
  {
    seq(|bs|, i requires 0 <= i < |bs| => bs[i].stamp)
  }

  /** The backup an index picked by a shared rule points at. */
  function At(bs: seq<BackupFile>, k: Option<nat>): Option<BackupFile> {
    if k.Some? && k.value < |bs| then Some(bs[k.value]) else None
  }

  lemma {:induction false} DailyFoldAppend(bs: seq<BackupFile>, selected: BackupFile, b: BackupFile)
    ensures DailyFold(bs + [b], selected) == if b.stamp.hour < 13 then b else DailyFold(bs, selected)
    decreases |bs|
  {
    if bs == [] {
      assert (bs + [b])[1..] == [];
    } else {
      assert (bs + [b])[1..] == bs[1..] + [b];
      DailyFoldAppend(bs[1..], if bs[0].stamp.hour < 13 then bs[0] else selected, b);
    }
  }

  /** How the legacy daily selection changes when one more (later) backup is listed. */
  lemma SelectPromoteDailyExtend(bs: seq<BackupFile>, b: BackupFile, date: Date)
    ensures SelectPromoteDaily(bs + [b], date) ==
      if DateOf(b.stamp) != date then SelectPromoteDaily(bs, date)
      else if SelectPromoteDaily(bs, date).None? || b.stamp.hour < 13 then Some(b)
      else SelectPromoteDaily(bs, date)
  {
    var p := (b: BackupFile) => DateOf(b.stamp) == date;
    FilterAppend(bs, [b], p);
    assert [b][1..] == [];
    var before := Filter(bs, p);
    if p(b) {
      assert Filter(bs + [b], p) == before + [b];
      if |before| >= 1 {
        assert (before + [b])[0] == before[0];
        DailyFoldAppend(before, before[0], b);
      } else {
        assert before + [b] == [b];
        assert DailyFold([b], b) == DailyFold([], b) == b;
      }
    } else {
      assert Filter(bs + [b], p) == before;
    }
  }

  /** The legacy daily selection picks exactly the backup the core's daily rule picks. */
  lemma {:induction false} LegacyDailyAgrees(bs: seq<BackupFile>, date: Date)
    ensures SelectPromoteDaily(bs, date) == At(bs, DailyPick(FileStamps(bs), date))
    decreases |bs|
  {
    if bs == [] {
      assert FileStamps(bs) == [];
    } else {
      var init, b := bs[..|bs| - 1], bs[|bs| - 1];
      assert bs == init + [b];
      LegacyDailyAgrees(init, date);
      SelectPromoteDailyExtend(init, b, date);
      assert FileStamps(bs) == FileStamps(init) + [b.stamp];
      DailyPickExtend(FileStamps(init), b.stamp, date);
    }
  }

  /** "The first element of the comprehension" is the backup the shared first-match rule points at. */
  lemma {:induction false} SelectFirstAgrees(bs: seq<BackupFile>, p: BackupFile -> bool, q: DateTime -> bool)
    requires forall b :: p(b) == q(b.stamp)
    ensures SelectFirst(bs, p) == At(bs, FirstWhere(FileStamps(bs), q))
    decreases |bs|
  {
    if bs != [] {
      var s := FileStamps(bs);
      assert s[1..] == FileStamps(bs[1..]);
      SelectFirstAgrees(bs[1..], p, q);
      if !p(bs[0]) {
        assert Filter(bs, p) == Filter(bs[1..], p);
      }
    }
  }

  /** The legacy weekly and monthly selections pick exactly what the core's rules pick. */
  lemma LegacyPeriodAgrees(bs: seq<BackupFile>, date: Date, isoWeek: Date -> int)
    ensures SelectPromoteWeekly(bs, date, isoWeek) == At(bs, WeeklyPick(FileStamps(bs), date, isoWeek))
    ensures SelectPromoteMonthly(bs, date) == At(bs, MonthlyPick(FileStamps(bs), date))
  {
    SelectFirstAgrees(bs, (b: BackupFile) => isoWeek(DateOf(b.stamp)) == isoWeek(date), t => isoWeek(DateOf(t)) == isoWeek(date));
    SelectFirstAgrees(bs, (b: BackupFile) => b.stamp.month == date.month, (t: DateTime) => t.month == date.month);
  }

  // ---------------------------------------------------------------- get_backup_*_for_date

  /** `for backup in backups: if p(backup): return backup` (falling off the end returns `None`). */
  function FirstMatching(bs: seq<BackupFile>, p: BackupFile -> bool): (r: Option<BackupFile>)
    decreases |bs|
  {
    if bs == [] then None
    else if p(bs[0]) then Some(bs[0])
    else FirstMatching(bs[1..], p)
  }

  /** The for-return loop finds the same backup as taking the comprehension's first element. */
  lemma {:induction false} FirstMatchingIsSelectFirst(bs: seq<BackupFile>, p: BackupFile -> bool)
    ensures FirstMatching(bs, p) == SelectFirst(bs, p)
    decreases |bs|
  {
    if bs != [] {
      FirstMatchingIsSelectFirst(bs[1..], p);
      if !p(bs[0]) {
        assert Filter(bs, p) == Filter(bs[1..], p);
      }
    }
  }

  /** The loop finds nothing exactly when no backup matches, and what it finds is a matching backup of the list. */
  lemma {:induction false} FirstMatchingMeaning(bs: seq<BackupFile>, p: BackupFile -> bool)
    ensures FirstMatching(bs, p).None? <==> forall b :: b in bs ==> !p(b)
    ensures FirstMatching(bs, p).Some? ==> FirstMatching(bs, p).value in bs && p(FirstMatching(bs, p).value)
    decreases |bs|
  {
    if bs != [] {
      FirstMatchingMeaning(bs[1..], p);
      assert forall b :: b in bs <==> b == bs[0] || b in bs[1..];
    }
  }

  /** The period test of `get_backup_<tier>_for_date`: same day, same ISO week number, or same month. */
  function InPeriodOf(t: Tier, date: Date, isoWeek: Date -> int): BackupFile -> bool {
    if t == Daily then (b: BackupFile) => DateOf(b.stamp) == date
    else if t == Weekly then (b: BackupFile) => isoWeek(DateOf(b.stamp)) == isoWeek(date)
    else (b: BackupFile) => b.stamp.month == date.month
  }

  /** `get_backup_daily_for_date`, `get_backup_weekly_for_date`, `get_backup_monthly_for_date`. */
  function BackupForDate(cfg: RollConfig, fs: Files, t: Tier, date: Date): Result<Option<BackupFile>, Error> {
    var bs :- ListTier(cfg, fs, t);
    Ok(FirstMatching(bs, InPeriodOf(t, date, cfg.isoWeek)))
  }

  // ---------------------------------------------------------------- should_promote_*

  /** The daily guard's clock test: a later day, or 13:00 or after. */
  predicate DailyDue(date: Date, now: DateTime) {
    DateBefore(date, DateOf(now)) || now.hour >= 13
  }

  /** `should_promote_<t>_backup`: none for the period yet and the tier enabled; daily also waits for `DailyDue`. */
  function ShouldPromoteFile(cfg: RollConfig, fs: Files, t: Tier, date: Date, now: DateTime): Result<bool, Error> {
    if t == Daily && !DailyDue(date, now) then Ok(false)
    else
      var found :- BackupForDate(cfg, fs, t, date);
      Ok(found.None? && Keep(cfg.keep, t) > 0)
  }

  /** The legacy guard spelt out: the daily clock test, the tier enabled, and no backup of the tier in the period. */
  lemma ShouldPromoteFileMeaning(cfg: RollConfig, fs: Files, t: Tier, date: Date, now: DateTime)
    requires ListTier(cfg, fs, t).Ok?
    ensures ShouldPromoteFile(cfg, fs, t, date, now) ==
      Ok((t != Daily || DailyDue(date, now)) && Keep(cfg.keep, t) > 0
         && forall b :: b in ListTier(cfg, fs, t).value ==> !InPeriodOf(t, date, cfg.isoWeek)(b))
  {
    FirstMatchingMeaning(ListTier(cfg, fs, t).value, InPeriodOf(t, date, cfg.isoWeek));
  }

  /**
   * The two daily guards differ at 12:xx on the backup's own day: the core promotes a `recent`
   * backup from 12:00, the legacy script only from 13:00; otherwise the legacy clock test
   * implies the core's.
   */
  lemma DailyGuardsCompared(date: Date, now: DateTime)
    ensures DailyDue(date, now) ==> !(!DateBefore(date, DateOf(now)) && now.hour < 12)
    ensures DateOf(now) == date && now.hour == 12 ==> !DailyDue(date, now) && !(!DateBefore(date, DateOf(now)) && now.hour < 12)
  {
  }

  /** At 12:xx on the date the legacy guard refuses, while the core's guard goes on to look at the daily tier. */
  lemma LegacyWaitsAnHourLonger(cfg: RollConfig, fs: Files, fmt: NameFormat, c: CollectionDir, ro: bool, plan: Plan,
                                date: Date, now: DateTime, isoWeek: Date -> int)
    requires DateOf(now) == date && now.hour == 12
    requires NextGroup(plan, Recent) == Some(Daily) && ListBackups(fmt, c, Daily, ro).Ok?
    ensures ShouldPromoteFile(cfg, fs, Daily, date, now) == Ok(false)
    ensures ShouldPromote(fmt, c, ro, plan, Recent, date, now, isoWeek) ==
      Ok(Keep(plan, Daily) > 0 && forall b :: b in ListBackups(fmt, c, Daily, ro).value ==> !InPeriod(Daily, date, isoWeek, b.stamp))
  {
    ShouldPromoteMeaning(fmt, c, ro, plan, Recent, date, now, isoWeek);
  }

  // ---------------------------------------------------------------- promote_backups

  /** Where each tier is promoted from: `daily` from the backup directory, `weekly` and `monthly` both from `daily`. */
  function SourceOf(t: Tier): Tier {
    if t == Daily then Recent else Daily
  }

  /** The selection rule for promotion into `t`. */
  function SelectFor(t: Tier, bs: seq<BackupFile>, date: Date, isoWeek: Date -> int): Option<BackupFile> {
    if t == Daily then SelectPromoteDaily(bs, date)
    else if t == Weekly then SelectPromoteWeekly(bs, date, isoWeek)
    else SelectPromoteMonthly(bs, date)
  }

  /** `os.makedirs(directory)` ignoring an existing one, then `os.link` of the file into it. */
  function LinkInto(fs: Files, b: BackupFile, dir: string): (Files, Outcome<Error>) {
    var made := if dir in fs then fs else fs[dir := []];
    if b.filename in made[dir] then (made, Fail(FileExists(PathJoin(dir, b.filename))))
    else (made[dir := made[dir] + [b.filename]], Pass)
  }

  /**
   * Linking succeeds exactly when the name is not yet in the directory, and then adds it;
   * the directory exists afterwards either way, and no other directory changes.
   */
  lemma LinkIntoMeaning(fs: Files, b: BackupFile, dir: string)
    ensures var (after, r) := LinkInto(fs, b, dir);
      && (r.Pass? <==> b.filename !in Listing(fs, dir))
      && (r.Pass? ==> after == fs[dir := Listing(fs, dir) + [b.filename]])
      && (r.Fail? ==> r.error == FileExists(PathJoin(dir, b.filename)) && after == fs[dir := Listing(fs, dir)])
  {
    if dir in fs {
      assert fs[dir := Listing(fs, dir)] == fs;
    }
  }

  /** One block of `promote_backups`: the guard, the selection from the source tier, the link. */
  function PromoteInto(cfg: RollConfig, fs: Files, t: Tier, now: DateTime): (Files, Outcome<Error>) {
    var date := DateOf(now);
    match ShouldPromoteFile(cfg, fs, t, date, now)
    case Err(e) => (fs, Fail(e))
    case Ok(due) =>
      if !due then (fs, Pass)
      else match ListTier(cfg, fs, SourceOf(t))
        case Err(e) => (fs, Fail(e))
        case Ok(bs) =>
          match SelectFor(t, bs, date, cfg.isoWeek)
          case None => (fs, Pass)
          case Some(b) => if cfg.simulate then (fs, Pass) else LinkInto(fs, b, TierDir(cfg, t))
  }

  /** `promote_backups`: daily, then weekly, then monthly, each seeing the links made before it. */
  function PromoteFiles(cfg: RollConfig, fs: Files, now: DateTime): (Files, Outcome<Error>) {
    var daily := PromoteInto(cfg, fs, Daily, now);
    if daily.1.Fail? then daily
    else
      var weekly := PromoteInto(cfg, daily.0, Weekly, now);
      if weekly.1.Fail? then weekly else PromoteInto(cfg, weekly.0, Monthly, now)
  }

  /** The selections only ever return a backup of their input. */
  lemma SelectForMember(t: Tier, bs: seq<BackupFile>, date: Date, isoWeek: Date -> int)
    requires SelectFor(t, bs, date, isoWeek).Some?
    ensures SelectFor(t, bs, date, isoWeek).value in bs
  {
    if t == Daily {
      LegacyDailyAgrees(bs, date);
    } else {
      LegacyPeriodAgrees(bs, date, isoWeek);
    }
  }

  /**
   * A promotion that changes the disk adds one name to the tier's directory: the name of a
   * backup listed in the source tier (`daily` for both `weekly` and `monthly`).
   */
  lemma PromoteIntoSource(cfg: RollConfig, fs: Files, t: Tier, now: DateTime)
    requires PromoteInto(cfg, fs, t, now).1.Pass? && PromoteInto(cfg, fs, t, now).0 != fs
    ensures !cfg.simulate && ListTier(cfg, fs, SourceOf(t)).Ok?
    ensures exists b :: (b in ListTier(cfg, fs, SourceOf(t)).value && b.basedir == TierDir(cfg, SourceOf(t))
      && PromoteInto(cfg, fs, t, now).0 == fs[TierDir(cfg, t) := Listing(fs, TierDir(cfg, t)) + [b.filename]])
  {
    var date := DateOf(now);
    var due := ShouldPromoteFile(cfg, fs, t, date, now);
    assert due.Ok? && due.value;
    var listed := ListTier(cfg, fs, SourceOf(t));
    assert listed.Ok?;
    var picked := SelectFor(t, listed.value, date, cfg.isoWeek);
    assert picked.Some? && !cfg.simulate;
    var b := picked.value;
    assert PromoteInto(cfg, fs, t, now) == LinkInto(fs, b, TierDir(cfg, t));
    SelectForMember(t, listed.value, date, cfg.isoWeek);
    ListedFile(cfg, fs, TierDir(cfg, SourceOf(t)), b);
    LinkIntoMeaning(fs, b, TierDir(cfg, t));
    assert b in listed.value && b.basedir == TierDir(cfg, SourceOf(t))
      && PromoteInto(cfg, fs, t, now).0 == fs[TierDir(cfg, t) := Listing(fs, TierDir(cfg, t)) + [b.filename]];
  }

  /** In simulate mode one promotion block leaves the disk as it was. */
  lemma PromoteIntoSimulate(cfg: RollConfig, fs: Files, t: Tier, now: DateTime)
    requires cfg.simulate
    ensures PromoteInto(cfg, fs, t, now).0 == fs
  {
    var date := DateOf(now);
    var due := ShouldPromoteFile(cfg, fs, t, date, now);
    if due.Ok? && due.value {
      var bs := ListTier(cfg, fs, SourceOf(t));
      if bs.Ok? {
        var b := SelectFor(t, bs.value, date, cfg.isoWeek);
        assert PromoteInto(cfg, fs, t, now) == (fs, Pass);
      }
    }
  }

  /** Simulate mode leaves the disk as it was. */
  lemma PromoteFilesSimulate(cfg: RollConfig, fs: Files, now: DateTime)
    requires cfg.simulate
    ensures PromoteFiles(cfg, fs, now).0 == fs
  {
    PromoteIntoSimulate(cfg, fs, Daily, now);
    PromoteIntoSimulate(cfg, fs, Weekly, now);
    PromoteIntoSimulate(cfg, fs, Monthly, now);
  }

  // ---------------------------------------------------------------- cleanup_backups

  /** Each tier's `backups[:-keep]`, concatenated in the order of `ts`; the first listing that raises wins. */
  function DeletionFrom(cfg: RollConfig, fs: Files, ts: seq<Tier>): Result<seq<BackupFile>, Error>
    decreases |ts|
  {
    if ts == [] then Ok([])
    else
      var bs :- ListTier(cfg, fs, ts[0]);
      var rest :- DeletionFrom(cfg, fs, ts[1..]);
      Ok(DropNewest(bs, Keep(cfg.keep, ts[0])) + rest)
  }

  /** `list_backups_to_delete`: recent, daily, weekly, monthly. */
  function DeletionFiles(cfg: RollConfig, fs: Files): Result<seq<BackupFile>, Error> {
    DeletionFrom(cfg, fs, RetentionGroups)
  }

  lemma {:induction false} DeletionFromPart(cfg: RollConfig, fs: Files, ts: seq<Tier>, t: Tier)
    requires t in ts && DeletionFrom(cfg, fs, ts).Ok?
    ensures ListTier(cfg, fs, t).Ok?
    ensures multiset(DropNewest(ListTier(cfg, fs, t).value, Keep(cfg.keep, t))) <= multiset(DeletionFrom(cfg, fs, ts).value)
    decreases |ts|
  {
    var rest := DeletionFrom(cfg, fs, ts[1..]);
    if ts[0] != t {
      DeletionFromPart(cfg, fs, ts[1..], t);
    }
  }

  /**
   * What the deletion list holds: per tier, with keep = 0 nothing and with keep >= 1 the oldest
   * max(0, n - keep) backups of that tier, none of them newer than a kept one.
   */
  lemma DeletionFilesMeaning(cfg: RollConfig, fs: Files, t: Tier)
    requires t in RetentionGroups && DeletionFiles(cfg, fs).Ok?
    ensures ListTier(cfg, fs, t).Ok?
    ensures var bs := ListTier(cfg, fs, t).value;
      var k := Keep(cfg.keep, t);
      && (k == 0 ==> DropNewest(bs, k) == [])
      && (k >= 1 ==> DropNewest(bs, k) == bs[..if |bs| > k then |bs| - k else 0])
      && multiset(DropNewest(bs, k)) <= multiset(DeletionFiles(cfg, fs).value)
      && (k >= 1 ==>
            var cut := if |bs| > k then |bs| - k else 0;
            forall i, j :: 0 <= i < cut <= j < |bs| ==> NoLater(bs[i].stamp, bs[j].stamp))
  {
    DeletionFromPart(cfg, fs, RetentionGroups, t);
    var bs := ListTier(cfg, fs, t).value;
    DropNewestPrefix(bs, Keep(cfg.keep, t));
    ListBackupsFromMeaning(cfg, fs, TierDir(cfg, t));
    forall i, j | 0 <= i < j < |bs|
      ensures NoLater(bs[i].stamp, bs[j].stamp)
    {
      assert NoLater(FileStamp(bs[i]), FileStamp(bs[j]));
    }
  }

  lemma {:induction false} DeletionFromKeepZero(cfg: RollConfig, fs: Files, ts: seq<Tier>)
    requires forall t :: t in ts ==> Keep(cfg.keep, t) == 0
    requires DeletionFrom(cfg, fs, ts).Ok?
    ensures DeletionFrom(cfg, fs, ts).value == []
    decreases |ts|
  {
    if ts != [] {
      DeletionFromKeepZero(cfg, fs, ts[1..]);
    }
  }

  /** A plan that keeps 0 of every tier deletes nothing at all. */
  lemma DeletionFilesKeepZero(cfg: RollConfig, fs: Files)
    requires cfg.keep == Plan(0, 0, 0, 0) && DeletionFiles(cfg, fs).Ok?
    ensures DeletionFiles(cfg, fs).value == []
  {
    DeletionFromKeepZero(cfg, fs, RetentionGroups);
  }

  /** A directory's names after removing `name`. */
  function Without(names: seq<string>, name: string): seq<string> {
    Filter(names, f => f != name)
  }

  lemma WithoutMeaning(names: seq<string>, name: string)
    ensures forall f :: f in Without(names, name) <==> f in names && f != name
  {
    FilterMeaning(names, f => f != name);
  }

  /** `os.remove(backup.path)` for each backup in turn; a missing file raises. */
  function RemoveFiles(fs: Files, bs: seq<BackupFile>): (Files, Outcome<Error>)
    decreases |bs|
  {
    if bs == [] then (fs, Pass)
    else
      var b := bs[0];
      if b.filename !in Listing(fs, b.basedir) then (fs, Fail(FileNotFound(FilePath(b))))
      else RemoveFiles(fs[b.basedir := Without(fs[b.basedir], b.filename)], bs[1..])
  }

  /** `cleanup_backups`; simulate mode removes nothing. */
  function CleanupFiles(cfg: RollConfig, fs: Files): (Files, Outcome<Error>) {
    match DeletionFiles(cfg, fs)
    case Err(e) => (fs, Fail(e))
    case Ok(bs) => if cfg.simulate then (fs, Pass) else RemoveFiles(fs, bs)
  }

  /** Removing files only ever shrinks directories: no file appears and no directory is created. */
  lemma {:induction false} RemoveFilesShrinks(fs: Files, bs: seq<BackupFile>)
    ensures var after := RemoveFiles(fs, bs).0;
      after.Keys == fs.Keys && forall dir :: dir in fs ==> forall f :: f in after[dir] ==> f in fs[dir]
    decreases |bs|
  {
    if bs != [] {
      var b := bs[0];
      if b.filename in Listing(fs, b.basedir) {
        var next := fs[b.basedir := Without(fs[b.basedir], b.filename)];
        WithoutMeaning(fs[b.basedir], b.filename);
        RemoveFilesShrinks(next, bs[1..]);
      }
    }
  }

  /** A removal that raises nowhere leaves none of the removed names in their directories. */
  lemma {:induction false} RemoveFilesRemoves(fs: Files, bs: seq<BackupFile>)
    requires RemoveFiles(fs, bs).1.Pass?
    ensures forall b :: b in bs ==> b.filename !in Listing(RemoveFiles(fs, bs).0, b.basedir)
    decreases |bs|
  {
    if bs != [] {
      var b := bs[0];
      var next := fs[b.basedir := Without(fs[b.basedir], b.filename)];
      RemoveFilesRemoves(next, bs[1..]);
      RemoveFilesShrinks(next, bs[1..]);
      WithoutMeaning(fs[b.basedir], b.filename);
      assert b.filename !in Listing(next, b.basedir);
    }
  }

  /** Simulate mode leaves the disk as it was. */
  lemma CleanupFilesSimulate(cfg: RollConfig, fs: Files)
    requires cfg.simulate
    ensures CleanupFiles(cfg, fs).0 == fs
  {
  }

  // ---------------------------------------------------------------- the disk and the roll object

  /** The part of the filesystem the legacy script touches. */
  class Disk {
    var files: Files

    constructor (files: Files)
      ensures this.files == files
    {
      this.files := files;
    }

    /** `os.makedirs(directory)` followed by `os.link(backup.path, directory/filename)`. */
    method Link(b: BackupFile, dir: string) returns (r: Outcome<Error>)
      modifies this
      ensures (files, r) == LinkInto(old(files), b, dir)
    {
      if dir !in files {
        files := files[dir := []];
      }
      if b.filename in files[dir] {
        return Fail(FileExists(PathJoin(dir, b.filename)));
      }
      files := files[dir := files[dir] + [b.filename]];
      r := Pass;
    }

    /** `os.remove(backup.path)`. */
    method Remove(b: BackupFile) returns (r: Outcome<Error>)
      modifies this
      ensures b.filename !in Listing(old(files), b.basedir) ==> r == Fail(FileNotFound(FilePath(b))) && files == old(files)
      ensures b.filename in Listing(old(files), b.basedir) ==>
        r == Pass && files == old(files)[b.basedir := Without(old(files)[b.basedir], b.filename)]
    {
      if b.basedir !in files || b.filename !in files[b.basedir] {
        return Fail(FileNotFound(FilePath(b)));
      }
      files := files[b.basedir := Without(files[b.basedir], b.filename)];
      r := Pass;
    }
  }

  /** `BackupRoll`: one world's backup directory with its keep plan. */
  class BackupRoll {
    const cfg: RollConfig
    const disk: Disk

    constructor (cfg: RollConfig, disk: Disk)
      ensures this.cfg == cfg && this.disk == disk
    {
      this.cfg := cfg;
      this.disk := disk;
    }

    /** `promote_backup_to_dir`: link unless simulating. */
    method PromoteBackupToDir(b: BackupFile, t: Tier) returns (r: Outcome<Error>)
      modifies disk
      ensures cfg.simulate ==> r == Pass && disk.files == old(disk.files)
      ensures !cfg.simulate ==> (disk.files, r) == LinkInto(old(disk.files), b, TierDir(cfg, t))
    {
      r := Pass;
      if !cfg.simulate {
        r := disk.Link(b, TierDir(cfg, t));
      }
    }

    /** One `if self.should_promote_<t>_backup(date):` block of `promote_backups`. */
    method PromoteTier(t: Tier, now: DateTime) returns (r: Outcome<Error>)
      modifies disk
      ensures (disk.files, r) == PromoteInto(cfg, old(disk.files), t, now)
    {
      var date := DateOf(now);
      var due := ShouldPromoteFile(cfg, disk.files, t, date, now);
      if due.Err? {
        return Fail(due.error);
      }
      if !due.value {
        return Pass;
      }
      var bs := ListTier(cfg, disk.files, SourceOf(t));
      if bs.Err? {
        return Fail(bs.error);
      }
      var candidate := SelectFor(t, bs.value, date, cfg.isoWeek);
      if candidate.None? {
        return Pass;
      }
      r := PromoteBackupToDir(candidate.value, t);
    }

    /** `promote_backups`. */
    method PromoteBackups(now: DateTime) returns (r: Outcome<Error>)
      modifies disk
      ensures (disk.files, r) == PromoteFiles(cfg, old(disk.files), now)
    {
      r := PromoteTier(Daily, now);
      if r.Pass? {
        r := PromoteTier(Weekly, now);
        if r.Pass? {
          r := PromoteTier(Monthly, now);
        }
      }
    }

    /** `delete_backup`: remove the file unless simulating. */
    method DeleteBackup(b: BackupFile) returns (r: Outcome<Error>)
      modifies disk
      ensures cfg.simulate ==> r == Pass && disk.files == old(disk.files)
      ensures !cfg.simulate ==> (disk.files, r) == RemoveFiles(old(disk.files), [b])
    {
      r := Pass;
      if !cfg.simulate {
        r := disk.Remove(b);
      }
    }

    /** `cleanup_backups`: delete every backup of the deletion list in turn. */
    method CleanupBackups() returns (r: Outcome<Error>)
      modifies disk
      ensures (disk.files, r) == CleanupFiles(cfg, old(disk.files))
    {
      var toDelete := DeletionFiles(cfg, disk.files);
      if toDelete.Err? {
        return Fail(toDelete.error);
      }
      var bs := toDelete.value;
      ghost var goal := CleanupFiles(cfg, disk.files);
      for i := 0 to |bs|
        invariant cfg.simulate ==> disk.files == old(disk.files)
        invariant !cfg.simulate ==> RemoveFiles(disk.files, bs[i..]) == goal
      {
        assert bs[i..][0] == bs[i] && bs[i..][1..] == bs[i + 1..];
        var deleted := DeleteBackup(bs[i]);
        if deleted.Fail? {
          return deleted;
        }
      }
      assert bs[|bs|..] == [];
      r := Pass;
    }
  }

  // ---------------------------------------------------------------- do_backuproll

  /** Why `do_backuproll` stopped: `exit(1)` after a failed backup command, a missing keep plan, or an exception. */
  datatype Stop = BackupFailed | MissingKeep(world: string) | Raised(error: Error)

  /** The arguments and configuration `do_backuproll` reads. */
  datatype RollParams = RollParams(backupcommand: string, backupfolder: string, hasWorldPrefix: bool, extension: string,
                                   dateformat: DateFormat, keeps: map<string, Plan>, simulate: bool, isoWeek: Date -> int)

  /** `backupcommand + ' ' + world`, run through the shell. */
  function BackupCall(p: RollParams, world: string): Invocation {
    Shell(p.backupcommand + " " + world)
  }

  /** The `BackupRoll` built for `world`. */
  function WorldRoll(p: RollParams, world: string, keep: Plan): RollConfig {
    RollConfig(PathJoin(p.backupfolder, world), if p.hasWorldPrefix then world + "_" else "", "." + p.extension,
               p.dateformat, keep, p.simulate, p.isoWeek)
  }

  /** After a successful command: look up the world's keep plan, then promote and clean up its directory. */
  function RollDir(p: RollParams, fs: Files, world: string, now: DateTime): (r: (Files, Outcome<Stop>))
    ensures r.1 != Fail(BackupFailed)
  {
    if world !in p.keeps then (fs, Fail(MissingKeep(world)))
    else
      var cfg := WorldRoll(p, world, p.keeps[world]);
      var promoted := PromoteFiles(cfg, fs, now);
      if promoted.1.Fail? then (promoted.0, Fail(Raised(promoted.1.error)))
      else
        var cleaned := CleanupFiles(cfg, promoted.0);
        if cleaned.1.Fail? then (cleaned.0, Fail(Raised(cleaned.1.error)))
        else (cleaned.0, Pass)
  }

  /** What rolls one world's directory once its backup command has succeeded. */
  type DirRoller = (Files, string) -> (Files, Outcome<Stop>)

  /** The directory roll of `do_backuproll`: `RollDir` with the run's parameters and clock. */
  function DirRoll(p: RollParams, now: DateTime): DirRoller {
    (fs: Files, world: string) => RollDir(p, fs, world, now)
  }

  /** A directory roll never reports the backup command's failure. */
  ghost predicate RollsDirectoryOnly(roll: DirRoller) {
    forall fs, world :: roll(fs, world).1 != Fail(BackupFailed)
  }

  lemma DirRollRollsDirectoryOnly(p: RollParams, now: DateTime)
    ensures RollsDirectoryOnly(DirRoll(p, now))
  {
    forall fs, world
      ensures DirRoll(p, now)(fs, world).1 != Fail(BackupFailed)
    {
      assert DirRoll(p, now)(fs, world) == RollDir(p, fs, world, now);
    }
  }

  /** One world of `do_backuproll`: the backup command, then the roll of its directory. */
  function RollWorld(p: RollParams, exitOf: Invocation -> int, roll: DirRoller, fs: Files, world: string)
    : (Files, seq<Invocation>, Outcome<Stop>)
  {
    var calls := if p.simulate then [] else [BackupCall(p, world)];
    if !p.simulate && exitOf(BackupCall(p, world)) != 0 then (fs, calls, Fail(BackupFailed))
    else
      var rolled := roll(fs, world);
      (rolled.0, calls, rolled.1)
  }

  /** `do_backuproll`: the worlds in order, stopping at the first that fails. */
  function RollWorlds(p: RollParams, exitOf: Invocation -> int, roll: DirRoller, fs: Files, worlds: seq<string>)
    : (Files, seq<Invocation>, Outcome<Stop>)
    decreases |worlds|
  {
    if worlds == [] then (fs, [], Pass)
    else
      var first := RollWorld(p, exitOf, roll, fs, worlds[0]);
      if first.2.Fail? then first
      else
        var rest := RollWorlds(p, exitOf, roll, first.0, worlds[1..]);
        (rest.0, first.1 + rest.1, rest.2)
  }

  /** The backup commands of the given worlds, in order. */
  function BackupCalls(p: RollParams, worlds: seq<string>): (r: seq<Invocation>)
    ensures |r| == |worlds| && forall i :: 0 <= i < |worlds| ==> r[i] == BackupCall(p, worlds[i])
  {
    if worlds == [] then [] else [BackupCall(p, worlds[0])] + BackupCalls(p, worlds[1..])
  }

  /** The commands `do_backuproll` runs are the backup commands of a prefix of the worlds, in order. */
  lemma {:induction false} RollWorldsCalls(p: RollParams, exitOf: Invocation -> int, roll: DirRoller, fs: Files, worlds: seq<string>)
    requires !p.simulate
    ensures var run := RollWorlds(p, exitOf, roll, fs, worlds);
      |run.1| <= |worlds| && run.1 == BackupCalls(p, worlds[..|run.1|])
    decreases |worlds|
  {
    if worlds != [] {
      var first := RollWorld(p, exitOf, roll, fs, worlds[0]);
      if first.2.Pass? {
        var rest := RollWorlds(p, exitOf, roll, first.0, worlds[1..]);
        RollWorldsCalls(p, exitOf, roll, first.0, worlds[1..]);
        var n := |rest.1|;
        assert worlds[..n + 1][1..] == worlds[1..][..n];
      } else {
        assert BackupCalls(p, worlds[..1]) == [BackupCall(p, worlds[0])];
      }
    }
  }

  /**
   * A run that finishes ran every world's command, each exiting with 0; `exit(1)` follows a
   * command that exited non-zero, and it is the last command run.
   */
  lemma {:induction false} RollWorldsExits(p: RollParams, exitOf: Invocation -> int, roll: DirRoller, fs: Files, worlds: seq<string>)
    requires !p.simulate && RollsDirectoryOnly(roll)
    ensures var run := RollWorlds(p, exitOf, roll, fs, worlds);
      && (run.2.Pass? ==> |run.1| == |worlds| && forall c :: c in run.1 ==> exitOf(c) == 0)
      && (run.2 == Fail(BackupFailed) ==> |run.1| > 0 && exitOf(run.1[|run.1| - 1]) != 0)
    decreases |worlds|
  {
    if worlds != [] {
      var first := RollWorld(p, exitOf, roll, fs, worlds[0]);
      if first.2.Pass? {
        var rest := RollWorlds(p, exitOf, roll, first.0, worlds[1..]);
        RollWorldsExits(p, exitOf, roll, first.0, worlds[1..]);
        if rest.2 == Fail(BackupFailed) {
          assert (first.1 + rest.1)[|first.1 + rest.1| - 1] == rest.1[|rest.1| - 1];
        }
      } else if first.2 == Fail(BackupFailed) {
        assert roll(fs, worlds[0]).1 != Fail(BackupFailed);
      }
    }
  }

  /** Simulate mode runs no command and leaves the disk as it was. */
  lemma {:induction false} RollWorldsSimulate(p: RollParams, exitOf: Invocation -> int, fs: Files, worlds: seq<string>, now: DateTime)
    requires p.simulate
    ensures var run := RollWorlds(p, exitOf, DirRoll(p, now), fs, worlds);
      run.0 == fs && run.1 == []
    decreases |worlds|
  {
    if worlds != [] {
      RollDirSimulate(p, fs, worlds[0], now);
      assert DirRoll(p, now)(fs, worlds[0]) == RollDir(p, fs, worlds[0], now);
      RollWorldsSimulate(p, exitOf, fs, worlds[1..], now);
    }
  }

  lemma RollDirSimulate(p: RollParams, fs: Files, world: string, now: DateTime)
    requires p.simulate
    ensures RollDir(p, fs, world, now).0 == fs
  {
    if world in p.keeps {
      var cfg := WorldRoll(p, world, p.keeps[world]);
      PromoteFilesSimulate(cfg, fs, now);
      CleanupFilesSimulate(cfg, PromoteFiles(cfg, fs, now).0);
    }
  }

  /** `do_backuproll` on the disk, proved to do what `RollWorlds` describes. */
  method DoBackupRoll(p: RollParams, worlds: seq<string>, disk: Disk, procs: Processes, now: DateTime) returns (r: Outcome<Stop>)
    modifies disk, procs
    ensures var run := RollWorlds(p, procs.exitOf, DirRoll(p, now), old(disk.files), worlds);
      disk.files == run.0 && procs.trace == old(procs.trace) + run.1 && r == run.2
  {
    ghost var goal := RollWorlds(p, procs.exitOf, DirRoll(p, now), disk.files, worlds);
    ghost var done: seq<Invocation> := [];
    assert worlds[0..] == worlds && done + goal.1 == goal.1;
    for i := 0 to |worlds|
      invariant procs.trace == old(procs.trace) + done
      invariant var rest := RollWorlds(p, procs.exitOf, DirRoll(p, now), disk.files, worlds[i..]);
        goal == (rest.0, done + rest.1, rest.2)
    {
      assert worlds[i..][0] == worlds[i] && worlds[i..][1..] == worlds[i + 1..];
      ghost var first := RollWorld(p, procs.exitOf, DirRoll(p, now), disk.files, worlds[i]);
      ghost var rest := RollWorlds(p, procs.exitOf, DirRoll(p, now), first.0, worlds[i + 1..]);
      r := RollOne(p, worlds[i], disk, procs, now);
      Runner.AppendAssoc(old(procs.trace), done, first.1);
      Runner.AppendAssoc(done, first.1, rest.1);
      done := done + first.1;
      if r.Fail? {
        return;
      }
    }
    r := Pass;
  }

  /** The body of `do_backuproll`'s loop for one world. */
  method RollOne(p: RollParams, world: string, disk: Disk, procs: Processes, now: DateTime) returns (r: Outcome<Stop>)
    modifies disk, procs
    ensures var run := RollWorld(p, procs.exitOf, DirRoll(p, now), old(disk.files), world);
      disk.files == run.0 && procs.trace == old(procs.trace) + run.1 && r == run.2
  {
    if !p.simulate {
      var code := procs.Call(BackupCall(p, world));
      if code != 0 {
        return Fail(BackupFailed);
      }
    }
    r := RollDirectory(p, world, disk, now);
    assert DirRoll(p, now)(old(disk.files), world) == RollDir(p, old(disk.files), world, now);
  }

  /** The promotion and cleanup half of `do_backuproll`'s loop body. */
  method RollDirectory(p: RollParams, world: string, disk: Disk, now: DateTime) returns (r: Outcome<Stop>)
    modifies disk
    ensures (disk.files, r) == RollDir(p, old(disk.files), world, now)
  {
    if world !in p.keeps {
      return Fail(MissingKeep(world));
    }
    var roll := new BackupRoll(WorldRoll(p, world, p.keeps[world]), disk);
    var promoted := roll.PromoteBackups(now);
    if promoted.Fail? {
      return Fail(Raised(promoted.error));
    }
    var cleaned := roll.CleanupBackups();
    if cleaned.Fail? {
      return Fail(Raised(cleaned.error));
    }
    r := Pass;
  }
}

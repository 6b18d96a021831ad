/**
 * The store hierarchy of backuproll/core.py: a store holds one directory per collection
 * (world), a collection one directory per retain group, a retain group one directory per
 * backup.  The filesystem is abstract state: a retain group's directory is the sequence of
 * its entry names in directory order plus its `latest` symlink.  A missing directory lists
 * as empty, as `list_all_backups` does when it catches `FileNotFoundError`.
 */
module BackupStore {
  import opened Wrappers
  import opened Calendar
  import opened Seqs

  /** The fixed retain-group names `recent`, `daily`, `weekly`, `monthly`, `pre-update`, `reverted`. */
  datatype Tier = Recent | Daily | Weekly | Monthly | PreUpdate | Reverted {
    /** Member of RETENTION_GROUPS (the automatically rotated tiers). */
    predicate IsRetention() {
      !PreUpdate? && !Reverted?
    }
  }

  const RetentionGroups: seq<Tier> := [Recent, Daily, Weekly, Monthly]
  const ManualGroups: seq<Tier> := [PreUpdate, Reverted]
  const AllGroups: seq<Tier> := RetentionGroups + ManualGroups

  function TierName(t: Tier): string {
    match t
    case Recent => "recent"
    case Daily => "daily"
    case Weekly => "weekly"
    case Monthly => "monthly"
    case PreUpdate => "pre-update"
    case Reverted => "reverted"
  }

  /** The name check of `get_retain_group`: only the six fixed names denote a group. */
  function TierNamed(name: string): (r: Option<Tier>)
    ensures r.Some? ==> TierName(r.value) == name
    ensures r.None? ==> forall t: Tier :: TierName(t) != name
  {
    if name == "recent" then Some(Recent)
    else if name == "daily" then Some(Daily)
    else if name == "weekly" then Some(Weekly)
    else if name == "monthly" then Some(Monthly)
    else if name == "pre-update" then Some(PreUpdate)
    else if name == "reverted" then Some(Reverted)
    else None
  }

  /** The exceptions the core raises, one constructor per kind. */
  datatype Error =
    | StoreReadonly                      // BackupStoreReadonlyError
    | InvalidRetainGroup(name: string)   // BackupError from get_retain_group
    | UnknownRetainGroup                 // BackupRotationError
    | MalformedName(name: string)        // ValueError from strptime
    | AlreadyFinalized                   // ValueError from finalize
    | FileExists(entry: string)          // FileExistsError from mkdir, rename or copytree
    | FileNotFound(entry: string)        // FileNotFoundError from rename or rmtree
    | HookFailed(stage: string, code: int) // BackupError from a pre or post command
    | SyncFailed                         // BackupError("Backup command failed!")
    | RestoreFailed                      // BackupError("Restore command failed!")
    | ReadonlyRoll                       // MinecraftBackupRollError("Readonly ...")
    | LockHeld                           // MinecraftBackupRollError("PID file exists ...")
    | NotLocked                          // MinecraftBackupRollError("Wasn't locked ...")
    | PermissionDenied                   // PermissionError from the liveness probe

  /**
   * The configured date format as a pair of functions: `strftime` and `strptime`.
   * Neither is modelled; `parse` is `None` where `strptime` raises.
   */
  datatype DateFormat = DateFormat(render: DateTime -> string, parse: string -> Option<DateTime>)

  /** A retain group's naming: `prefix + timestamp + suffix`. */
  datatype NameFormat = NameFormat(prefix: string, suffix: string, dateformat: DateFormat)

  /** The defaults of `BackupRetainGroup.__init__`: prefix `<collection>_`, empty suffix. */
  function DefaultFormat(collection: string, df: DateFormat): NameFormat {
    NameFormat(collection + "_", "", df)
  }

  predicate EndsWith(s: string, suffix: string) {
    |suffix| <= |s| && s[|s| - |suffix|..] == suffix
  }

  /** `strptime(name, prefix + dateformat + suffix)`: the literal prefix and suffix, and a timestamp between them. */
  function ParseName(fmt: NameFormat, name: string): Option<DateTime> {
    if |fmt.prefix| + |fmt.suffix| <= |name| && fmt.prefix <= name && EndsWith(name, fmt.suffix) then
      fmt.dateformat.parse(name[|fmt.prefix|..|name| - |fmt.suffix|])
    else
      None
  }

  /** `new_backup_named` builds the name that `Backup.__init__` parses back. */
  function ComposeName(fmt: NameFormat, text: string): string {
    fmt.prefix + text + fmt.suffix
  }

  lemma ParseComposedName(fmt: NameFormat, text: string)
    ensures ParseName(fmt, ComposeName(fmt, text)) == fmt.dateformat.parse(text)
  {
    var name := ComposeName(fmt, text);
    assert name[|fmt.prefix|..|name| - |fmt.suffix|] == text;
    assert name[|name| - |fmt.suffix|..] == fmt.suffix;
  }

  const InProgressMark: string := ".in-progress"

  /** The directory name of a backup: `<name>` or `<name>.in-progress`. */
  function DirName(name: string, inProgress: bool): string {
    if inProgress then name + InProgressMark else name
  }

  /** `a / b` on `pathlib` paths; joining an empty component leaves the path as it is. */
  function PathJoin(a: string, b: string): string {
    if b == "" then a else a + "/" + b
  }

  /** The directory of entry `e` of retain group `t` of collection `world` in the store at `storeDir`. */
  function EntryPath(storeDir: string, world: string, t: Tier, e: string): string {
    PathJoin(PathJoin(PathJoin(storeDir, world), TierName(t)), e)
  }

  /**
   * A `Backup` object: its retain group, name, parsed timestamp, in-progress flag,
   * the directory it currently refers to (`entry`, relative to the group) and its readonly flag.
   */
  datatype Backup = Backup(group: Tier, name: string, stamp: DateTime, inProgress: bool, entry: string, readonly: bool)

  function StampOf(b: Backup): DateTime {
    b.stamp
  }

  predicate IsFinalized(b: Backup) {
    !b.inProgress
  }

  predicate IsInProgress(b: Backup) {
    b.inProgress
  }

  /** What a `latest` symlink points at: a backup directory of some retain group. */
  datatype LinkTarget = LinkTarget(group: Tier, entry: string)

  datatype GroupDir = GroupDir(entries: seq<string>, latest: Option<LinkTarget>)

  datatype CollectionDir = CollectionDir(groups: map<Tier, GroupDir>, latest: Option<LinkTarget>)

  const EmptyCollection := CollectionDir(map[], None)
  const EmptyGroup := GroupDir([], None)

  /** The entry names of a retain group's directory; a missing directory has none. */
  function Entries(c: CollectionDir, t: Tier): seq<string> {
    if t in c.groups then c.groups[t].entries else []
  }

  function Group(c: CollectionDir, t: Tier): GroupDir {
    if t in c.groups then c.groups[t] else EmptyGroup
  }

  /** A collection directory, or an empty one when it does not exist. */
  function Coll(m: map<string, CollectionDir>, world: string): CollectionDir {
    if world in m then m[world] else EmptyCollection
  }

  /** `mkdir` of a retain group's directory when it is missing. */
  function EnsureGroup(c: CollectionDir, t: Tier): (r: CollectionDir)
    ensures t in r.groups
    ensures forall u :: Entries(r, u) == Entries(c, u)
  {
    if t in c.groups then c else c.(groups := c.groups[t := EmptyGroup])
  }

  function EnsureGroups(c: CollectionDir, ts: seq<Tier>): (r: CollectionDir)
    ensures forall t :: t in ts ==> t in r.groups
    ensures forall t :: t in c.groups ==> t in r.groups
    ensures forall u :: Entries(r, u) == Entries(c, u)
    decreases |ts|
  {
    if ts == [] then c else EnsureGroups(EnsureGroup(c, ts[0]), ts[1..])
  }

  /** Adds a directory entry (creating the group directory as `mkdir(parents=True)` does). */
  function AddEntry(c: CollectionDir, t: Tier, e: string): CollectionDir {
    var g := Group(c, t);
    c.(groups := c.groups[t := g.(entries := g.entries + [e])])
  }

  /** Removes a directory entry (`rmtree`). */
  function RemoveEntry(c: CollectionDir, t: Tier, e: string): CollectionDir {
    var g := Group(c, t);
    c.(groups := c.groups[t := g.(entries := Filter(g.entries, x => x != e))])
  }

  /** Renames a directory entry in place (`Path.rename`). */
  function RenameEntry(c: CollectionDir, t: Tier, from: string, to: string): CollectionDir {
    var g := Group(c, t);
    c.(groups := c.groups[t := g.(entries := seq(|g.entries|, i requires 0 <= i < |g.entries| =>
                                               if g.entries[i] == from then to else g.entries[i]))])
  }

  /** Repoints a retain group's `latest` symlink. */
  function SetGroupLatest(c: CollectionDir, t: Tier, target: LinkTarget): CollectionDir {
    var g := Group(c, t);
    c.(groups := c.groups[t := g.(latest := Some(target))])
  }

  /** The prefix/suffix filter of `list_all_backups`. */
  predicate Listed(fmt: NameFormat, e: string) {
    fmt.prefix <= e && EndsWith(e, fmt.suffix)
  }

  function ListedEntries(fmt: NameFormat, es: seq<string>): seq<string> {
    Filter(es, e => Listed(fmt, e))
  }

  lemma ListedEntriesMeaning(fmt: NameFormat, es: seq<string>)
    ensures forall e :: e in ListedEntries(fmt, es) <==> e in es && Listed(fmt, e)
  {
    FilterMeaning(es, e => Listed(fmt, e));
  }

  /** `get_backup(entry)` for an entry that exists: strip `.in-progress`, set the flag, parse the name. */
  function GetBackup(fmt: NameFormat, t: Tier, readonly: bool, e: string): (r: Result<Backup, Error>)
    ensures r.Ok? ==> r.value.group == t && r.value.readonly == readonly && r.value.entry == e
    ensures r.Ok? ==> r.value.inProgress == EndsWith(e, InProgressMark)
    ensures r.Ok? ==> DirName(r.value.name, r.value.inProgress) == e
  {
    var inProgress := EndsWith(e, InProgressMark);
    var name := if inProgress then e[..|e| - |InProgressMark|] else e;
    match ParseName(fmt, name)
    case None => Err(MalformedName(name))
    case Some(stamp) => Ok(Backup(t, name, stamp, inProgress, e, readonly))
  }

  /** `get_backup(name)`: `None` when the group has no such entry. */
  function LookupBackup(fmt: NameFormat, c: CollectionDir, t: Tier, readonly: bool, e: string): (r: Result<Option<Backup>, Error>)
    ensures e !in Entries(c, t) ==> r == Ok(None)
    ensures r.Ok? && r.value.Some? ==> r.value.value.entry == e && r.value.value.group == t
  {
    if e !in Entries(c, t) then Ok(None)
    else
      var b :- GetBackup(fmt, t, readonly, e);
      Ok(Some(b))
  }

  /** The directory name of a backup reads back as that backup. */
  lemma GetBackupOfDirName(fmt: NameFormat, t: Tier, readonly: bool, name: string, inProgress: bool)
    requires ParseName(fmt, name).Some?
    requires !EndsWith(name, InProgressMark)
    ensures GetBackup(fmt, t, readonly, DirName(name, inProgress))
         == Ok(Backup(t, name, ParseName(fmt, name).value, inProgress, DirName(name, inProgress), readonly))
  {
    var e := DirName(name, inProgress);
    if inProgress {
      assert e[|e| - |InProgressMark|..] == InProgressMark;
      assert e[..|e| - |InProgressMark|] == name;
    }
  }

  /** `[self.get_backup(f) for f in folders]`: the first entry that does not parse raises. */
  function ParseAll(fmt: NameFormat, t: Tier, readonly: bool, es: seq<string>): (r: Result<seq<Backup>, Error>)
    ensures r.Ok? <==> forall i :: 0 <= i < |es| ==> GetBackup(fmt, t, readonly, es[i]).Ok?
    ensures r.Ok? ==> |r.value| == |es| && forall i :: 0 <= i < |es| ==> GetBackup(fmt, t, readonly, es[i]) == Ok(r.value[i])
  {
    if es == [] then Ok([])
    else
      var b :- GetBackup(fmt, t, readonly, es[0]);
      var rest :- ParseAll(fmt, t, readonly, es[1..]);
      Ok([b] + rest)
  }

  lemma {:induction false} ParseAllAppend(fmt: NameFormat, t: Tier, readonly: bool, es: seq<string>, e: string)
    requires ParseAll(fmt, t, readonly, es).Ok? && GetBackup(fmt, t, readonly, e).Ok?
    ensures ParseAll(fmt, t, readonly, es + [e]) == Ok(ParseAll(fmt, t, readonly, es).value + [GetBackup(fmt, t, readonly, e).value])
  {
    if es == [] {
      assert es + [e] == [e];
      assert [e][1..] == [];
      assert ParseAll(fmt, t, readonly, [e][1..]) == Ok([]);
      assert ParseAll(fmt, t, readonly, [e]) == Ok([GetBackup(fmt, t, readonly, e).value] + []);
      assert ParseAll(fmt, t, readonly, es) == Ok([]);
      assert [GetBackup(fmt, t, readonly, e).value] + [] == [] + [GetBackup(fmt, t, readonly, e).value];
    } else {
      var b := GetBackup(fmt, t, readonly, es[0]).value;
      assert ParseAll(fmt, t, readonly, es[1..]).Ok?;
      assert (es + [e])[0] == es[0];
      assert (es + [e])[1..] == es[1..] + [e];
      ParseAllAppend(fmt, t, readonly, es[1..], e);
      var rest := ParseAll(fmt, t, readonly, es[1..]).value;
      var be := GetBackup(fmt, t, readonly, e).value;
      assert ParseAll(fmt, t, readonly, es) == Ok([b] + rest);
      assert ParseAll(fmt, t, readonly, es + [e]) == Ok([b] + (rest + [be]));
      assert [b] + (rest + [be]) == ([b] + rest) + [be];
    }
  }

  /** `list_all_backups`: every listed entry as a Backup, sorted by timestamp (stable). */
  function ListAllBackups(fmt: NameFormat, c: CollectionDir, t: Tier, readonly: bool): Result<seq<Backup>, Error> {
    var parsed :- ParseAll(fmt, t, readonly, ListedEntries(fmt, Entries(c, t)));
    Ok(SortBy(parsed, StampOf))
  }

  /** `list_backups`: the finalized backups, ascending. */
  function ListBackups(fmt: NameFormat, c: CollectionDir, t: Tier, readonly: bool): Result<seq<Backup>, Error> {
    var all :- ListAllBackups(fmt, c, t, readonly);
    Ok(Filter(all, IsFinalized))
  }

  /** `list_in_progress_backups`: the in-progress backups, ascending. */
  function ListInProgress(fmt: NameFormat, c: CollectionDir, t: Tier, readonly: bool): Result<seq<Backup>, Error> {
    var all :- ListAllBackups(fmt, c, t, readonly);
    Ok(Filter(all, IsInProgress))
  }

  /** `get_latest_backup`: the last finalized backup. */
  function LatestBackup(fmt: NameFormat, c: CollectionDir, t: Tier, readonly: bool): (r: Result<Option<Backup>, Error>)
    ensures r.Ok? <==> ListBackups(fmt, c, t, readonly).Ok?
    ensures r.Ok? ==> (r.value.None? <==> ListBackups(fmt, c, t, readonly).value == [])
  {
    var bs :- ListBackups(fmt, c, t, readonly);
    if |bs| > 0 then Ok(Some(bs[|bs| - 1])) else Ok(None)
  }

  /** A listing succeeds exactly when every entry that passes the prefix/suffix filter parses. */
  lemma ListAllOk(fmt: NameFormat, c: CollectionDir, t: Tier, readonly: bool)
    ensures ListAllBackups(fmt, c, t, readonly).Ok? <==>
      forall e :: e in Entries(c, t) && Listed(fmt, e) ==> GetBackup(fmt, t, readonly, e).Ok?
  {
    var es := ListedEntries(fmt, Entries(c, t));
    ListedEntriesMeaning(fmt, Entries(c, t));
    if !ParseAll(fmt, t, readonly, es).Ok? {
      var i :| 0 <= i < |es| && !GetBackup(fmt, t, readonly, es[i]).Ok?;
      assert es[i] in Entries(c, t) && Listed(fmt, es[i]);
    } else {
      forall e | e in Entries(c, t) && Listed(fmt, e)
        ensures GetBackup(fmt, t, readonly, e).Ok?
      {
        var k :| 0 <= k < |Entries(c, t)| && Entries(c, t)[k] == e;
        assert e in es;
      }
    }
  }

  /** Every listed backup is an entry of this group that passes the filter, read back by `get_backup`. */
  lemma ListAllMember(fmt: NameFormat, c: CollectionDir, t: Tier, readonly: bool, b: Backup)
    requires ListAllBackups(fmt, c, t, readonly).Ok?
    requires b in ListAllBackups(fmt, c, t, readonly).value
    ensures b.entry in Entries(c, t) && Listed(fmt, b.entry)
    ensures GetBackup(fmt, t, readonly, b.entry) == Ok(b)
    ensures b.group == t && b.readonly == readonly
  {
    var es := ListedEntries(fmt, Entries(c, t));
    ListedEntriesMeaning(fmt, Entries(c, t));
    var parsed := ParseAll(fmt, t, readonly, es).value;
    SortByMeaning(parsed, StampOf);
    assert b in multiset(SortBy(parsed, StampOf));
    assert b in multiset(parsed);
    var i :| 0 <= i < |parsed| && parsed[i] == b;
    assert GetBackup(fmt, t, readonly, es[i]) == Ok(b);
    assert es[i] in es;
  }

  /** Every entry of the group that passes the filter is listed. */
  lemma ListAllComplete(fmt: NameFormat, c: CollectionDir, t: Tier, readonly: bool, e: string)
    requires ListAllBackups(fmt, c, t, readonly).Ok?
    requires e in Entries(c, t) && Listed(fmt, e)
    ensures GetBackup(fmt, t, readonly, e).Ok?
    ensures GetBackup(fmt, t, readonly, e).value in ListAllBackups(fmt, c, t, readonly).value
  {
    var es := ListedEntries(fmt, Entries(c, t));
    ListedEntriesMeaning(fmt, Entries(c, t));
    var parsed := ParseAll(fmt, t, readonly, es).value;
    var k :| 0 <= k < |Entries(c, t)| && Entries(c, t)[k] == e;
    assert e in es;
    var i :| 0 <= i < |es| && es[i] == e;
    assert parsed[i] in multiset(parsed);
    SortByMeaning(parsed, StampOf);
    assert parsed[i] in multiset(SortBy(parsed, StampOf));
  }

  /** `list_backups` lists the finalized backups, ascending, and `list_in_progress_backups` the others. */
  lemma ListBackupsMeaning(fmt: NameFormat, c: CollectionDir, t: Tier, readonly: bool)
    requires ListAllBackups(fmt, c, t, readonly).Ok?
    ensures ListBackups(fmt, c, t, readonly).Ok? && ListInProgress(fmt, c, t, readonly).Ok?
    ensures SortedBy(ListBackups(fmt, c, t, readonly).value, StampOf)
    ensures forall b :: b in ListBackups(fmt, c, t, readonly).value <==>
                        b in ListAllBackups(fmt, c, t, readonly).value && !b.inProgress
    ensures forall b :: b in ListInProgress(fmt, c, t, readonly).value <==>
                        b in ListAllBackups(fmt, c, t, readonly).value && b.inProgress
  {
    var all := ListAllBackups(fmt, c, t, readonly).value;
    SortByMeaning(ParseAll(fmt, t, readonly, ListedEntries(fmt, Entries(c, t))).value, StampOf);
    FilterSorted(all, IsFinalized, StampOf);
    FilterMeaning(all, IsFinalized);
    FilterMeaning(all, IsInProgress);
  }

  /** The latest backup is the newest finalized one. */
  lemma LatestIsNewest(fmt: NameFormat, c: CollectionDir, t: Tier, readonly: bool)
    requires LatestBackup(fmt, c, t, readonly).Ok? && LatestBackup(fmt, c, t, readonly).value.Some?
    ensures var latest := LatestBackup(fmt, c, t, readonly).value.value;
      && latest in ListBackups(fmt, c, t, readonly).value && !latest.inProgress
      && forall b :: b in ListBackups(fmt, c, t, readonly).value ==> NoLater(b.stamp, latest.stamp)
  {
    ListBackupsMeaning(fmt, c, t, readonly);
    var bs := ListBackups(fmt, c, t, readonly).value;
    assert LatestBackup(fmt, c, t, readonly).value.value == bs[|bs| - 1];
    LastIsNewest(bs);
  }

  lemma LastIsNewest(bs: seq<Backup>)
    requires bs != [] && SortedBy(bs, StampOf)
    ensures forall b :: b in bs ==> NoLater(b.stamp, bs[|bs| - 1].stamp)
  {
    forall b | b in bs
      ensures NoLater(b.stamp, bs[|bs| - 1].stamp)
    {
      var i :| 0 <= i < |bs| && bs[i] == b;
      if i < |bs| - 1 {
        assert NoLater(StampOf(bs[i]), StampOf(bs[|bs| - 1]));
      }
    }
  }

  /** The filesystem of a store: one directory per collection, read and changed by the methods below. */
  class Store {
    const directory: string
    const readonly: bool
    const dateformat: DateFormat
    var collections: map<string, CollectionDir>

    /** `BackupStore.__init__` touches nothing: the store is whatever the filesystem holds. */
    constructor (directory: string, dateformat: DateFormat, readonly: bool, existing: map<string, CollectionDir>)
      ensures this.directory == directory && this.dateformat == dateformat && this.readonly == readonly
      ensures collections == existing
    {
      this.directory := directory;
      this.dateformat := dateformat;
      this.readonly := readonly;
      collections := existing;
    }

    function Format(world: string): NameFormat {
      DefaultFormat(world, dateformat)
    }

    /**
     * `get_collection`: a missing collection is an error in a readonly store and is created
     * otherwise; a writable store then creates every retain group (`BackupCollection.__init__`).
     */
    method GetCollection(world: string) returns (r: Outcome<Error>)
      modifies this
      ensures world !in old(collections) && readonly ==> r == Fail(StoreReadonly) && collections == old(collections)
      ensures world in old(collections) && readonly ==> r == Pass && collections == old(collections)
      ensures !readonly ==> r == Pass && collections == old(collections)[world := EnsureGroups(Coll(old(collections), world), AllGroups)]
    {
      if world !in collections && readonly {
        return Fail(StoreReadonly);
      }
      if !readonly {
        collections := collections[world := EnsureGroups(Coll(collections, world), AllGroups)];
      }
      r := Pass;
    }

    /**
     * `get_retain_group`: a name outside the fixed set raises; otherwise the group's directory
     * is created if missing, even in a readonly store (`BackupRetainGroup.__init__` does not check).
     */
    method GetRetainGroup(world: string, name: string) returns (r: Result<Tier, Error>)
      modifies this
      ensures TierNamed(name).None? ==> r == Err(InvalidRetainGroup(name)) && collections == old(collections)
      ensures TierNamed(name).Some? ==>
        (r == Ok(TierNamed(name).value)
         && collections == old(collections)[world := EnsureGroup(Coll(old(collections), world), r.value)])
    {
      match TierNamed(name)
      case None =>
        return Err(InvalidRetainGroup(name));
      case Some(t) =>
        collections := collections[world := EnsureGroup(Coll(collections, world), t)];
        return Ok(t);
    }

    /**
     * `new_backup_named`: in a writable store, creates `<prefix><text><suffix>.in-progress`
     * when missing and only then parses the name, so a name that fails to parse leaves the
     * directory behind.  Nothing here knows about simulate mode.
     */
    method NewBackupNamed(world: string, t: Tier, text: string) returns (r: Result<Backup, Error>)
      modifies this
      ensures readonly ==> r == Err(StoreReadonly) && collections == old(collections)
      ensures !readonly ==>
        var name := ComposeName(Format(world), text);
        var e := DirName(name, true);
        var c := Coll(old(collections), world);
        && collections == old(collections)[world := if e in Entries(c, t) then c else AddEntry(c, t, e)]
        && r == match ParseName(Format(world), name)
                case None => Err(MalformedName(name))
                case Some(stamp) => Ok(Backup(t, name, stamp, true, e, false))
    {
      if readonly {
        return Err(StoreReadonly);
      }
      var name := ComposeName(Format(world), text);
      var e := DirName(name, true);
      var c := Coll(collections, world);
      if e !in Entries(c, t) {
        c := AddEntry(c, t, e);
      }
      collections := collections[world := c];
      match ParseName(Format(world), name)
      case None =>
        r := Err(MalformedName(name));
      case Some(stamp) =>
        r := Ok(Backup(t, name, stamp, true, e, false));
    }

    /**
     * `Backup.finalize`: readonly and already-finalized backups raise; otherwise the backup's
     * directory is renamed to `<name>` and the returned backup refers to it.  The in-progress
     * flag is not cleared, so a second call renames `<name>` onto itself and succeeds.
     */
    method Finalize(world: string, b: Backup) returns (r: Result<Backup, Error>)
      modifies this
      ensures b.readonly ==> r == Err(StoreReadonly) && collections == old(collections)
      ensures !b.readonly && !b.inProgress ==> r == Err(AlreadyFinalized) && collections == old(collections)
      ensures !b.readonly && b.inProgress ==>
        var c := Coll(old(collections), world);
        if b.entry !in Entries(c, b.group) then r == Err(FileNotFound(b.entry)) && collections == old(collections)
        else if b.entry == b.name then r == Ok(b) && collections == old(collections)
        else if b.name in Entries(c, b.group) then r == Err(FileExists(b.name)) && collections == old(collections)
        else r == Ok(b.(entry := b.name)) && r.value.inProgress
             && collections == old(collections)[world := RenameEntry(c, b.group, b.entry, b.name)]
    {
      if b.readonly {
        return Err(StoreReadonly);
      }
      if !b.inProgress {
        return Err(AlreadyFinalized);
      }
      var c := Coll(collections, world);
      if b.entry !in Entries(c, b.group) {
        return Err(FileNotFound(b.entry));
      }
      if b.entry == b.name {
        return Ok(b);
      }
      if b.name in Entries(c, b.group) {
        return Err(FileExists(b.name));
      }
      collections := collections[world := RenameEntry(c, b.group, b.entry, b.name)];
      r := Ok(b.(entry := b.name));
    }

    /** `Backup.delete`: readonly raises; otherwise `rmtree` of the backup's current directory. */
    method Delete(world: string, b: Backup) returns (r: Outcome<Error>)
      modifies this
      ensures r == DeleteOutcome(Coll(old(collections), world), b)
      ensures r.Fail? ==> collections == old(collections)
      ensures r.Pass? ==> collections == old(collections)[world := RemoveEntry(Coll(old(collections), world), b.group, b.entry)]
    {
      r := DeleteOutcome(Coll(collections, world), b);
      if r.Pass? {
        collections := collections[world := RemoveEntry(Coll(collections, world), b.group, b.entry)];
      }
    }

    /** Repoints the group's and the collection's `latest` symlinks (`run_blocking` after a finalize). */
    method SetLatestLinks(world: string, t: Tier, target: LinkTarget)
      modifies this
      ensures collections == old(collections)[world := SetGroupLatest(Coll(old(collections), world), t, target).(latest := Some(target))]
    {
      var c := SetGroupLatest(Coll(collections, world), t, target);
      collections := collections[world := c.(latest := Some(target))];
    }
  }

  /** Whether `Backup.delete` raises on this collection. */
  function DeleteOutcome(c: CollectionDir, b: Backup): (r: Outcome<Error>)
    ensures r.Pass? <==> !b.readonly && b.entry in Entries(c, b.group)
  {
    if b.readonly then Fail(StoreReadonly)
    else if b.entry !in Entries(c, b.group) then Fail(FileNotFound(b.entry))
    else Pass
  }
}

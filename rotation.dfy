/**
 * `BackupRotation` of backuproll/core.py: the tier chain, the promotion guard, the choice of
 * the backup to promote, the promotion pass over the tiers and the eviction of backups
 * beyond each tier's keep-count.  The functions state each rule over a collection's
 * directory state; the `Rotation` class performs it on a `Store`.
 */
module Rotation {
  import opened Wrappers
  import opened Calendar
  import opened Seqs
  import opened Policy
  import opened BackupStore

  /** A retention plan: the keep-count of each rotated tier. */
  datatype Plan = Plan(recent: int, daily: int, weekly: int, monthly: int)

  /** The keep-count of a rotated tier; the manual groups have none and are never rotated. */
  function Keep(plan: Plan, t: Tier): int {
    match t
    case Recent => plan.recent
    case Daily => plan.daily
    case Weekly => plan.weekly
    case Monthly => plan.monthly
    case PreUpdate => 0
    case Reverted => 0
  }

  /** Position in the chain recent, daily, weekly, monthly (the manual groups come last). */
  function TierIndex(t: Tier): nat {
    match t
    case Recent => 0
    case Daily => 1
    case Weekly => 2
    case Monthly => 3
    case PreUpdate => 4
    case Reverted => 5
  }

  /**
   * `get_next_retain_group`, following the source branch by branch: a disabled `daily`
   * moves the search on to `daily`'s own check, but a disabled `weekly` resets the search
   * name to `daily` again, so `monthly` is never reached by skipping.
   */
  function NextGroup(plan: Plan, t: Tier): (r: Option<Tier>)
    ensures r.Some? ==> r.value.IsRetention() && Keep(plan, r.value) > 0
    ensures r.Some? ==> TierIndex(r.value) > TierIndex(t)
  {
    if t == Recent && plan.daily > 0 then Some(Daily)
    else
      var name := if t == Recent then Daily else t;
      if name == Daily && plan.weekly > 0 then Some(Weekly)
      else
        var name' := if name == Daily then Daily else name;
        if name' == Weekly && plan.monthly > 0 then Some(Monthly)
        else None
  }

  /** The chain one would expect: the first enabled tier above `t`. */
  function IntendedNext(plan: Plan, t: Tier): Option<Tier> {
    if !t.IsRetention() then None else FirstEnabledFrom(plan, TierIndex(t) + 1)
  }

  function FirstEnabledFrom(plan: Plan, i: nat): Option<Tier>
    decreases 4 - i
  {
    if i >= 4 then None
    else if Keep(plan, RetentionGroups[i]) > 0 then Some(RetentionGroups[i])
    else FirstEnabledFrom(plan, i + 1)
  }

  /** The tier chain as written, case by case. */
  lemma NextGroupTable(plan: Plan, t: Tier)
    ensures t == Recent ==>
      NextGroup(plan, t) == (if plan.daily > 0 then Some(Daily) else if plan.weekly > 0 then Some(Weekly) else None)
    ensures t == Daily ==> NextGroup(plan, t) == (if plan.weekly > 0 then Some(Weekly) else None)
    ensures t == Weekly ==> NextGroup(plan, t) == (if plan.monthly > 0 then Some(Monthly) else None)
    ensures t == Monthly || !t.IsRetention() ==> NextGroup(plan, t) == None
  {
  }

  /**
   * Where the tier chain as written departs from "the first enabled tier above": only when
   * `monthly` is the next enabled tier and has to be reached by skipping a disabled `weekly`.
   * Whenever the written chain finds a tier, it is the intended one.
   */
  lemma NextGroupVersusIntended(plan: Plan, t: Tier)
    ensures NextGroup(plan, t) != IntendedNext(plan, t) <==>
      ((t == Recent && plan.daily <= 0 && plan.weekly <= 0 && plan.monthly > 0)
       || (t == Daily && plan.weekly <= 0 && plan.monthly > 0))
    ensures NextGroup(plan, t).Some? ==> NextGroup(plan, t) == IntendedNext(plan, t)
  {
    assert RetentionGroups[1] == Daily && RetentionGroups[2] == Weekly && RetentionGroups[3] == Monthly;
  }

  /** The period test of `get_backups_for_date` for a group named `t`. */
  predicate InPeriod(t: Tier, date: Date, isoWeek: Date -> int, stamp: DateTime) {
    if t == Recent || t == Daily then DateOf(stamp) == date
    else if t == Weekly then isoWeek(DateOf(stamp)) == isoWeek(date)
    else if t == Monthly then stamp.month == date.month
    else false
  }

  /** `get_backups_for_date` on a listing: the backups of `date`'s day, ISO week or month; other groups raise. */
  function BackupsForDate(t: Tier, bs: seq<Backup>, date: Date, isoWeek: Date -> int): (r: Result<seq<Backup>, Error>)
    ensures r.Err? <==> !t.IsRetention()
    ensures r.Ok? ==> forall b :: b in r.value <==> b in bs && InPeriod(t, date, isoWeek, b.stamp)
  {
    if !t.IsRetention() then Err(UnknownRetainGroup)
    else
      var r := Filter(bs, (b: Backup) => InPeriod(t, date, isoWeek, b.stamp));
      FilterMeaning(bs, (b: Backup) => InPeriod(t, date, isoWeek, b.stamp));
      Ok(r)
  }

  /** `group.get_backups_for_date(date)`: list the group, then filter. */
  function GroupBackupsForDate(fmt: NameFormat, c: CollectionDir, t: Tier, ro: bool, date: Date, isoWeek: Date -> int): Result<seq<Backup>, Error> {
    var bs :- ListBackups(fmt, c, t, ro);
    BackupsForDate(t, bs, date, isoWeek)
  }

  /**
   * The timestamps of a core listing, the sequence the shared rules of `Policy` are stated on.
   * `Legacy.FileStamps` is the same projection for the legacy script's `BackupFile` records.
   */
  function Stamps(bs: seq<Backup>): (s: seq<DateTime>)
    ensures |s| == |bs| && forall i :: 0 <= i < |bs| ==> s[i] == bs[i].stamp
  {
    seq(|bs|, i requires 0 <= i < |bs| => bs[i].stamp)
  }

  /** The candidate rule for promotion into `to` (an index into the source listing). */
  function PickFor(to: Tier, bs: seq<Backup>, date: Date, isoWeek: Date -> int): (r: Result<Option<nat>, Error>)
    ensures r.Ok? && r.value.Some? ==> r.value.value < |bs|
  {
    if to == Daily then Ok(DailyPick(Stamps(bs), date))
    else if to == Weekly then Ok(WeeklyPick(Stamps(bs), date, isoWeek))
    else if to == Monthly then Ok(MonthlyPick(Stamps(bs), date))
    else Err(UnknownRetainGroup)
  }

  /** `select_promotion_backup`: list the source, then apply the rule of the target group. */
  function SelectPromotion(fmt: NameFormat, c: CollectionDir, ro: bool, from: Tier, to: Option<Tier>, date: Date, isoWeek: Date -> int): Result<Option<Backup>, Error> {
    var bs :- ListBackups(fmt, c, from, ro);
    if to.None? then Ok(None)
    else
      var k :- PickFor(to.value, bs, date, isoWeek);
      if k.None? then Ok(None) else Ok(Some(bs[k.value]))
  }

  /** The selection raises exactly when the listing does or the target is not `daily`, `weekly` or `monthly`. */
  lemma SelectPromotionFails(fmt: NameFormat, c: CollectionDir, ro: bool, from: Tier, to: Option<Tier>, date: Date, isoWeek: Date -> int)
    ensures SelectPromotion(fmt, c, ro, from, to, date, isoWeek).Ok? <==>
      ListBackups(fmt, c, from, ro).Ok? && (to.None? || to.value in {Daily, Weekly, Monthly})
  {
  }

  /** A candidate is a finalized backup of the source group that lies in the target's period. */
  lemma SelectPromotionFound(fmt: NameFormat, c: CollectionDir, ro: bool, from: Tier, to: Option<Tier>, date: Date, isoWeek: Date -> int)
    requires SelectPromotion(fmt, c, ro, from, to, date, isoWeek).Ok?
    requires SelectPromotion(fmt, c, ro, from, to, date, isoWeek).value.Some?
    ensures var b := SelectPromotion(fmt, c, ro, from, to, date, isoWeek).value.value;
      && to.Some? && ListBackups(fmt, c, from, ro).Ok? && b in ListBackups(fmt, c, from, ro).value
      && InPeriod(to.value, date, isoWeek, b.stamp)
  {
    var bs := ListBackups(fmt, c, from, ro).value;
    PeriodPickMeaning(Stamps(bs), date, isoWeek);
    DailyPickMeaning(Stamps(bs), date);
  }

  /** There is no candidate only when the source has no backup in the target's period. */
  lemma SelectPromotionNone(fmt: NameFormat, c: CollectionDir, ro: bool, from: Tier, to: Option<Tier>, date: Date, isoWeek: Date -> int)
    requires SelectPromotion(fmt, c, ro, from, to, date, isoWeek) == Ok(None)
    requires to.Some?
    ensures forall b :: b in ListBackups(fmt, c, from, ro).value ==> !InPeriod(to.value, date, isoWeek, b.stamp)
  {
    var bs := ListBackups(fmt, c, from, ro).value;
    var stamps := Stamps(bs);
    assert PickFor(to.value, bs, date, isoWeek) == Ok(None);
    if to.value == Daily {
      DailyPickMeaning(stamps, date);
    } else if to.value == Weekly {
      PeriodPickMeaning(stamps, date, isoWeek);
      assert WeeklyPick(stamps, date, isoWeek).None?;
    } else {
      PeriodPickMeaning(stamps, date, isoWeek);
      assert MonthlyPick(stamps, date).None?;
    }
    forall b | b in bs
      ensures !InPeriod(to.value, date, isoWeek, b.stamp)
    {
      var j :| 0 <= j < |bs| && bs[j] == b;
      assert stamps[j] == b.stamp;
    }
  }

  /**
   * `should_promote_backup`: a `recent` backup waits while it is not yet noon on `date`;
   * otherwise promote when the next tier exists, is enabled and has no backup for the period.
   */
  function ShouldPromote(fmt: NameFormat, c: CollectionDir, ro: bool, plan: Plan, from: Tier, date: Date, now: DateTime, isoWeek: Date -> int): (r: Result<bool, Error>)
    ensures r == Ok(true) ==> NextGroup(plan, from).Some?
  {
    var to := NextGroup(plan, from);
    if from == Recent && !DateBefore(date, DateOf(now)) && now.hour < 12 then Ok(false)
    else if to.None? then Ok(false)
    else
      var inPeriod :- GroupBackupsForDate(fmt, c, to.value, ro, date, isoWeek);
      Ok(|inPeriod| < 1 && Keep(plan, to.value) > 0)
  }

  /** The promotion guard spelt out: deferral, then "enabled and empty for the period". */
  lemma ShouldPromoteMeaning(fmt: NameFormat, c: CollectionDir, ro: bool, plan: Plan, from: Tier, date: Date, now: DateTime, isoWeek: Date -> int)
    ensures from == Recent && !DateBefore(date, DateOf(now)) && now.hour < 12 ==>
      ShouldPromote(fmt, c, ro, plan, from, date, now, isoWeek) == Ok(false)
    ensures NextGroup(plan, from).None? ==> ShouldPromote(fmt, c, ro, plan, from, date, now, isoWeek) == Ok(false)
    ensures !(from == Recent && !DateBefore(date, DateOf(now)) && now.hour < 12) && NextGroup(plan, from).Some?
            && ListBackups(fmt, c, NextGroup(plan, from).value, ro).Ok? ==>
      var to := NextGroup(plan, from).value;
      ShouldPromote(fmt, c, ro, plan, from, date, now, isoWeek) ==
        Ok(Keep(plan, to) > 0 && forall b :: b in ListBackups(fmt, c, to, ro).value ==> !InPeriod(to, date, isoWeek, b.stamp))
  {
    if !(from == Recent && !DateBefore(date, DateOf(now)) && now.hour < 12) && NextGroup(plan, from).Some?
       && ListBackups(fmt, c, NextGroup(plan, from).value, ro).Ok? {
      var to := NextGroup(plan, from).value;
      var bs := ListBackups(fmt, c, to, ro).value;
      var inPeriod := BackupsForDate(to, bs, date, isoWeek).value;
      if |inPeriod| > 0 {
        assert inPeriod[0] in inPeriod;
      }
    }
  }

  /** `promote_backup_to_retain_group` without simulate: `copytree` to `<to>/<name>`, then repoint `<to>/latest`. */
  function CopyInto(c: CollectionDir, b: Backup, to: Tier): (r: Result<CollectionDir, Error>)
    ensures r.Ok? <==> b.name !in Entries(c, to)
    ensures r.Ok? ==> Entries(r.value, to) == Entries(c, to) + [b.name]
    ensures r.Ok? ==> forall u :: u != to ==> Entries(r.value, u) == Entries(c, u)
    ensures r.Ok? ==> Group(r.value, to).latest == Some(LinkTarget(to, b.name))
  {
    if b.name in Entries(c, to) then Err(FileExists(b.name))
    else Ok(SetGroupLatest(AddEntry(c, to, b.name), to, LinkTarget(to, b.name)))
  }

  /** One iteration of `promote_backups`' loop, for the source group `from`. */
  function PromoteStep(fmt: NameFormat, c: CollectionDir, ro: bool, plan: Plan, simulate: bool, from: Tier, now: DateTime, isoWeek: Date -> int): Result<CollectionDir, Error> {
    var date := DateOf(now);
    var should :- ShouldPromote(fmt, c, ro, plan, from, date, now, isoWeek);
    if !should then Ok(c)
    else
      var to := NextGroup(plan, from);
      var candidate :- SelectPromotion(fmt, c, ro, from, to, date, isoWeek);
      if candidate.None? || simulate then Ok(c)
      else CopyInto(c, candidate.value, to.value)
  }

  /** `promote_backups` over the remaining source groups `ts`: the state reached and whether it raised. */
  function PromotePass(fmt: NameFormat, c: CollectionDir, ro: bool, plan: Plan, simulate: bool, ts: seq<Tier>, now: DateTime, isoWeek: Date -> int): (CollectionDir, Outcome<Error>)
    decreases |ts|
  {
    if ts == [] then (c, Pass)
    else
      var step := PromoteStep(fmt, c, ro, plan, simulate, ts[0], now, isoWeek);
      if step.Err? then (c, Fail(step.error))
      else PromotePass(fmt, step.value, ro, plan, simulate, ts[1..], now, isoWeek)
  }

  /** `promote_backups`: the tiers in order, each seeing the promotions made before it. */
  function PromoteAll(fmt: NameFormat, c: CollectionDir, ro: bool, plan: Plan, simulate: bool, now: DateTime, isoWeek: Date -> int): (CollectionDir, Outcome<Error>) {
    PromotePass(fmt, c, ro, plan, simulate, RetentionGroups, now, isoWeek)
  }

  /** Simulate mode promotes nothing. */
  lemma {:induction false} PromoteSimulateChangesNothing(fmt: NameFormat, c: CollectionDir, ro: bool, plan: Plan, ts: seq<Tier>, now: DateTime, isoWeek: Date -> int)
    ensures PromotePass(fmt, c, ro, plan, true, ts, now, isoWeek).0 == c
  {
    if ts != [] {
      PromoteSimulateChangesNothing(fmt, c, ro, plan, ts[1..], now, isoWeek);
    }
  }

  /**
   * `d` holds every entry of `c`, in the same order, followed by entries that all parse as
   * backup directory names.
   */
  ghost predicate GrownFrom(fmt: NameFormat, ro: bool, c: CollectionDir, d: CollectionDir) {
    && (forall u :: Entries(c, u) <= Entries(d, u))
    && (forall u, k :: |Entries(c, u)| <= k < |Entries(d, u)| ==> GetBackup(fmt, u, ro, Entries(d, u)[k]).Ok?)
  }

  lemma GrownTransitive(fmt: NameFormat, ro: bool, c: CollectionDir, c1: CollectionDir, d: CollectionDir)
    requires GrownFrom(fmt, ro, c, c1) && GrownFrom(fmt, ro, c1, d)
    ensures GrownFrom(fmt, ro, c, d)
  {
    forall u, k | |Entries(c, u)| <= k < |Entries(d, u)|
      ensures GetBackup(fmt, u, ro, Entries(d, u)[k]).Ok?
    {
      assert Entries(c1, u) <= Entries(d, u);
      if k < |Entries(c1, u)| {
        assert Entries(d, u)[k] == Entries(c1, u)[k];
      }
    }
  }

  /** A listing that succeeds keeps succeeding as the group grows, and keeps every backup it had. */
  lemma GrownListing(fmt: NameFormat, ro: bool, c: CollectionDir, d: CollectionDir, t: Tier)
    requires GrownFrom(fmt, ro, c, d)
    requires ListAllBackups(fmt, c, t, ro).Ok?
    ensures ListAllBackups(fmt, d, t, ro).Ok?
    ensures forall b :: b in ListBackups(fmt, c, t, ro).value ==> b in ListBackups(fmt, d, t, ro).value
  {
    ListAllOk(fmt, c, t, ro);
    ListAllOk(fmt, d, t, ro);
    assert Entries(c, t) <= Entries(d, t);
    forall e | e in Entries(d, t) && Listed(fmt, e)
      ensures GetBackup(fmt, t, ro, e).Ok?
    {
      var k :| 0 <= k < |Entries(d, t)| && Entries(d, t)[k] == e;
      if k < |Entries(c, t)| {
        assert e == Entries(c, t)[k];
      }
    }
    ListBackupsMeaning(fmt, c, t, ro);
    ListBackupsMeaning(fmt, d, t, ro);
    forall b | b in ListBackups(fmt, c, t, ro).value
      ensures b in ListBackups(fmt, d, t, ro).value
    {
      ListAllMember(fmt, c, t, ro, b);
      ListAllComplete(fmt, d, t, ro, b.entry);
    }
  }

  /** The same backup directory, seen from another group. */
  lemma GetBackupRegroup(fmt: NameFormat, t: Tier, u: Tier, ro: bool, e: string)
    requires GetBackup(fmt, t, ro, e).Ok?
    ensures GetBackup(fmt, u, ro, e) == Ok(GetBackup(fmt, t, ro, e).value.(group := u))
  {
  }

  /** A step that changed something copied the candidate into the next tier. */
  lemma PromoteStepCopied(fmt: NameFormat, c: CollectionDir, ro: bool, plan: Plan, simulate: bool, from: Tier, now: DateTime, isoWeek: Date -> int)
    requires PromoteStep(fmt, c, ro, plan, simulate, from, now, isoWeek).Ok?
    requires PromoteStep(fmt, c, ro, plan, simulate, from, now, isoWeek).value != c
    ensures var to := NextGroup(plan, from);
      var candidate := SelectPromotion(fmt, c, ro, from, to, DateOf(now), isoWeek);
      && to.Some? && candidate.Ok? && candidate.value.Some?
      && CopyInto(c, candidate.value.value, to.value) == PromoteStep(fmt, c, ro, plan, simulate, from, now, isoWeek)
  {
  }

  /** Copying a listed backup appends its directory, which parses, to the target group and nothing else. */
  lemma CopyGrows(fmt: NameFormat, c: CollectionDir, ro: bool, from: Tier, to: Tier, b: Backup)
    requires ListBackups(fmt, c, from, ro).Ok? && b in ListBackups(fmt, c, from, ro).value
    requires CopyInto(c, b, to).Ok?
    ensures GrownFrom(fmt, ro, c, CopyInto(c, b, to).value)
  {
    var c1 := CopyInto(c, b, to).value;
    ListBackupsMeaning(fmt, c, from, ro);
    ListAllMember(fmt, c, from, ro, b);
    GetBackupRegroup(fmt, from, to, ro, b.name);
    forall u, k | |Entries(c, u)| <= k < |Entries(c1, u)|
      ensures GetBackup(fmt, u, ro, Entries(c1, u)[k]).Ok?
    {
      assert u == to && Entries(c1, u)[k] == b.name;
    }
  }

  /** A promotion step only appends, to the next tier, the directory of a backup that lists. */
  lemma PromoteStepGrows(fmt: NameFormat, c: CollectionDir, ro: bool, plan: Plan, simulate: bool, from: Tier, now: DateTime, isoWeek: Date -> int)
    requires PromoteStep(fmt, c, ro, plan, simulate, from, now, isoWeek).Ok?
    ensures var c1 := PromoteStep(fmt, c, ro, plan, simulate, from, now, isoWeek).value;
      && GrownFrom(fmt, ro, c, c1)
      && forall u :: NextGroup(plan, from) != Some(u) ==> Entries(c1, u) == Entries(c, u)
  {
    var c1 := PromoteStep(fmt, c, ro, plan, simulate, from, now, isoWeek).value;
    if c1 != c {
      PromoteStepCopied(fmt, c, ro, plan, simulate, from, now, isoWeek);
      var to := NextGroup(plan, from);
      SelectPromotionFound(fmt, c, ro, from, to, DateOf(now), isoWeek);
      CopyGrows(fmt, c, ro, from, to.value, SelectPromotion(fmt, c, ro, from, to, DateOf(now), isoWeek).value.value);
    }
  }

  /** The next tier holding a backup of the period blocks promotion. */
  lemma FilledPeriodBlocks(fmt: NameFormat, d: CollectionDir, ro: bool, plan: Plan, from: Tier, now: DateTime, isoWeek: Date -> int, b: Backup)
    requires NextGroup(plan, from).Some?
    requires ListBackups(fmt, d, NextGroup(plan, from).value, ro).Ok?
    requires b in ListBackups(fmt, d, NextGroup(plan, from).value, ro).value
    requires InPeriod(NextGroup(plan, from).value, DateOf(now), isoWeek, b.stamp)
    ensures ShouldPromote(fmt, d, ro, plan, from, DateOf(now), now, isoWeek) == Ok(false)
  {
    ShouldPromoteMeaning(fmt, d, ro, plan, from, DateOf(now), now, isoWeek);
  }

  /** A backup copied into the next tier shows up in that tier's listing, with its timestamp. */
  lemma PromotedIsListed(fmt: NameFormat, c: CollectionDir, d: CollectionDir, ro: bool, from: Tier, to: Tier, b: Backup)
    requires ListBackups(fmt, c, from, ro).Ok? && b in ListBackups(fmt, c, from, ro).value
    requires b.name in Entries(d, to)
    requires ListAllBackups(fmt, d, to, ro).Ok?
    ensures b.(group := to) in ListBackups(fmt, d, to, ro).value
  {
    ListBackupsMeaning(fmt, c, from, ro);
    ListAllMember(fmt, c, from, ro, b);
    GetBackupRegroup(fmt, from, to, ro, b.name);
    ListAllComplete(fmt, d, to, ro, b.name);
    ListBackupsMeaning(fmt, d, to, ro);
  }

  /** Promotion refused because the period was filled stays refused as the next tier grows. */
  lemma StableWhenFilled(fmt: NameFormat, c: CollectionDir, ro: bool, plan: Plan, from: Tier, now: DateTime, isoWeek: Date -> int, d: CollectionDir)
    requires !(from == Recent && now.hour < 12) && NextGroup(plan, from).Some?
    requires ShouldPromote(fmt, c, ro, plan, from, DateOf(now), now, isoWeek) == Ok(false)
    requires GrownFrom(fmt, ro, c, d)
    ensures ShouldPromote(fmt, d, ro, plan, from, DateOf(now), now, isoWeek) == Ok(false)
  {
    var to := NextGroup(plan, from).value;
    assert ListBackups(fmt, c, to, ro).Ok?;
    GrownListing(fmt, ro, c, d, to);
    ShouldPromoteMeaning(fmt, c, ro, plan, from, DateOf(now), now, isoWeek);
    var b0 :| b0 in ListBackups(fmt, c, to, ro).value && InPeriod(to, DateOf(now), isoWeek, b0.stamp);
    FilledPeriodBlocks(fmt, d, ro, plan, from, now, isoWeek, b0);
  }

  /** A listing reads nothing but the group's entries. */
  lemma SameEntriesSameListing(fmt: NameFormat, c: CollectionDir, d: CollectionDir, t: Tier, ro: bool)
    requires Entries(d, t) == Entries(c, t)
    ensures ListBackups(fmt, d, t, ro) == ListBackups(fmt, c, t, ro)
  {
  }

  /** Once the candidate has been copied into the next tier, that tier has a backup of the period. */
  lemma CopiedFillsPeriod(fmt: NameFormat, c: CollectionDir, ro: bool, plan: Plan, from: Tier, now: DateTime, isoWeek: Date -> int, d: CollectionDir, b: Backup)
    requires NextGroup(plan, from).Some?
    requires SelectPromotion(fmt, c, ro, from, NextGroup(plan, from), DateOf(now), isoWeek) == Ok(Some(b))
    requires CopyInto(c, b, NextGroup(plan, from).value).Ok?
    requires GrownFrom(fmt, ro, CopyInto(c, b, NextGroup(plan, from).value).value, d)
    requires GrownFrom(fmt, ro, c, d)
    requires ListBackups(fmt, c, NextGroup(plan, from).value, ro).Ok?
    ensures ShouldPromote(fmt, d, ro, plan, from, DateOf(now), now, isoWeek) == Ok(false)
  {
    var to := NextGroup(plan, from).value;
    var c1 := CopyInto(c, b, to).value;
    SelectPromotionFound(fmt, c, ro, from, NextGroup(plan, from), DateOf(now), isoWeek);
    assert b.name in Entries(d, to) by {
      assert b.name in Entries(c1, to);
      assert Entries(c1, to) <= Entries(d, to);
    }
    GrownListing(fmt, ro, c, d, to);
    PromotedIsListed(fmt, c, d, ro, from, to, b);
    FilledPeriodBlocks(fmt, d, ro, plan, from, now, isoWeek, b.(group := to));
  }

  /** The candidate depends on the source group's entries only. */
  lemma SameEntriesSameSelection(fmt: NameFormat, c: CollectionDir, d: CollectionDir, ro: bool, from: Tier, to: Option<Tier>, date: Date, isoWeek: Date -> int)
    requires Entries(d, from) == Entries(c, from)
    ensures SelectPromotion(fmt, d, ro, from, to, date, isoWeek) == SelectPromotion(fmt, c, ro, from, to, date, isoWeek)
  {
    SameEntriesSameListing(fmt, c, d, from, ro);
  }

  /** A step whose guard refuses, or whose promotion has no effect, leaves the state as it is. */
  lemma StepWithoutEffect(fmt: NameFormat, d: CollectionDir, ro: bool, plan: Plan, simulate: bool, from: Tier, now: DateTime, isoWeek: Date -> int, candidate: Option<Backup>)
    requires ShouldPromote(fmt, d, ro, plan, from, DateOf(now), now, isoWeek).Ok?
    requires ShouldPromote(fmt, d, ro, plan, from, DateOf(now), now, isoWeek) == Ok(true) ==>
      SelectPromotion(fmt, d, ro, from, NextGroup(plan, from), DateOf(now), isoWeek) == Ok(candidate) && (candidate.None? || simulate)
    ensures PromoteStep(fmt, d, ro, plan, simulate, from, now, isoWeek) == Ok(d)
  {
  }

  /** After a promotion into the next tier, the same step on a grown state finds the period filled. */
  lemma StableAfterPromotion(fmt: NameFormat, c: CollectionDir, ro: bool, plan: Plan, simulate: bool, from: Tier, now: DateTime, isoWeek: Date -> int, d: CollectionDir, candidate: Option<Backup>)
    requires NextGroup(plan, from).Some?
    requires ListBackups(fmt, c, NextGroup(plan, from).value, ro).Ok?
    requires SelectPromotion(fmt, c, ro, from, NextGroup(plan, from), DateOf(now), isoWeek) == Ok(candidate)
    requires candidate.Some? && !simulate ==>
      && CopyInto(c, candidate.value, NextGroup(plan, from).value).Ok?
      && GrownFrom(fmt, ro, CopyInto(c, candidate.value, NextGroup(plan, from).value).value, d)
    requires GrownFrom(fmt, ro, c, d)
    requires Entries(d, from) == Entries(c, from)
    ensures PromoteStep(fmt, d, ro, plan, simulate, from, now, isoWeek) == Ok(d)
  {
    if candidate.Some? && !simulate {
      CopiedFillsPeriod(fmt, c, ro, plan, from, now, isoWeek, d, candidate.value);
      StepWithoutEffect(fmt, d, ro, plan, simulate, from, now, isoWeek, candidate);
    } else {
      var to := NextGroup(plan, from).value;
      GrownListing(fmt, ro, c, d, to);
      assert ListBackups(fmt, d, to, ro).Ok?;
      SameEntriesSameSelection(fmt, c, d, ro, from, NextGroup(plan, from), DateOf(now), isoWeek);
      StepWithoutEffect(fmt, d, ro, plan, simulate, from, now, isoWeek, candidate);
    }
  }

  /**
   * A promotion step that succeeded on `c`, leading to `c1`, changes nothing when repeated on
   * any later state `d` that still has `from`'s entries of `c` and has grown from `c1`:
   * either the next tier already had a backup for the period, or it has the promoted one now.
   */
  lemma PromoteStepStable(fmt: NameFormat, c: CollectionDir, ro: bool, plan: Plan, simulate: bool, from: Tier, now: DateTime, isoWeek: Date -> int, d: CollectionDir)
    requires PromoteStep(fmt, c, ro, plan, simulate, from, now, isoWeek).Ok?
    requires Entries(d, from) == Entries(c, from)
    requires GrownFrom(fmt, ro, PromoteStep(fmt, c, ro, plan, simulate, from, now, isoWeek).value, d)
    ensures PromoteStep(fmt, d, ro, plan, simulate, from, now, isoWeek) == Ok(d)
  {
    var c1 := PromoteStep(fmt, c, ro, plan, simulate, from, now, isoWeek).value;
    if !(from == Recent && now.hour < 12) && NextGroup(plan, from).Some? {
      PromoteStepGrows(fmt, c, ro, plan, simulate, from, now, isoWeek);
      GrownTransitive(fmt, ro, c, c1, d);
      if ShouldPromote(fmt, c, ro, plan, from, DateOf(now), now, isoWeek) == Ok(false) {
        StableWhenFilled(fmt, c, ro, plan, from, now, isoWeek, d);
      } else {
        var candidate := SelectPromotion(fmt, c, ro, from, NextGroup(plan, from), DateOf(now), isoWeek).value;
        assert ListBackups(fmt, c, NextGroup(plan, from).value, ro).Ok?;
        StableAfterPromotion(fmt, c, ro, plan, simulate, from, now, isoWeek, d, candidate);
      }
    }
  }

  /** The rest of a pass from position `j` leaves the tiers up to `j` alone and only grows the others. */
  lemma {:induction false} PromotePassFrame(fmt: NameFormat, c: CollectionDir, ro: bool, plan: Plan, simulate: bool, j: nat, now: DateTime, isoWeek: Date -> int)
    requires j <= |RetentionGroups|
    requires PromotePass(fmt, c, ro, plan, simulate, RetentionGroups[j..], now, isoWeek).1.Pass?
    ensures var d := PromotePass(fmt, c, ro, plan, simulate, RetentionGroups[j..], now, isoWeek).0;
      && GrownFrom(fmt, ro, c, d)
      && forall u :: TierIndex(u) <= j ==> Entries(d, u) == Entries(c, u)
    decreases |RetentionGroups| - j
  {
    if j < |RetentionGroups| {
      PromotePassStep(fmt, c, ro, plan, simulate, j, now, isoWeek);
      var c1 := PromoteStep(fmt, c, ro, plan, simulate, RetentionGroups[j], now, isoWeek).value;
      PromoteStepGrows(fmt, c, ro, plan, simulate, RetentionGroups[j], now, isoWeek);
      PromotePassFrame(fmt, c1, ro, plan, simulate, j + 1, now, isoWeek);
      var d := PromotePass(fmt, c, ro, plan, simulate, RetentionGroups[j..], now, isoWeek).0;
      GrownTransitive(fmt, ro, c, c1, d);
      assert TierIndex(RetentionGroups[j]) == j;
    } else {
      assert RetentionGroups[j..] == [];
    }
  }

  /**
   * A later run on the same date whose noon deferral of `recent` holds at least whenever the
   * first run's did: if the first run was before 12:00, so is the second.
   */
  predicate RerunSameDay(now: DateTime, now2: DateTime) {
    DateOf(now2) == DateOf(now) && (now.hour < 12 ==> now2.hour < 12)
  }

  /**
   * A step at a rerun on the same day is the same step, except that `recent` is deferred when
   * the rerun falls before noon.
   */
  lemma StepAtRerun(fmt: NameFormat, d: CollectionDir, ro: bool, plan: Plan, simulate: bool, from: Tier, now: DateTime, now2: DateTime, isoWeek: Date -> int)
    requires RerunSameDay(now, now2)
    ensures from == Recent && now2.hour < 12 ==> PromoteStep(fmt, d, ro, plan, simulate, from, now2, isoWeek) == Ok(d)
    ensures !(from == Recent && now2.hour < 12) ==>
      PromoteStep(fmt, d, ro, plan, simulate, from, now2, isoWeek) == PromoteStep(fmt, d, ro, plan, simulate, from, now, isoWeek)
  {
    assert !DateBefore(DateOf(now), DateOf(now));
  }

  /**
   * Repeating the rest of a pass from position `i` on the state it reached, at the same
   * instant or at a rerun on the same day, changes nothing.
   */
  lemma {:induction false} PromotePassStable(fmt: NameFormat, c: CollectionDir, ro: bool, plan: Plan, simulate: bool, i: nat, now: DateTime, now2: DateTime, isoWeek: Date -> int)
    requires i <= |RetentionGroups|
    requires RerunSameDay(now, now2)
    requires PromotePass(fmt, c, ro, plan, simulate, RetentionGroups[i..], now, isoWeek).1.Pass?
    ensures var d := PromotePass(fmt, c, ro, plan, simulate, RetentionGroups[i..], now, isoWeek).0;
      PromotePass(fmt, d, ro, plan, simulate, RetentionGroups[i..], now2, isoWeek) == (d, Pass)
    decreases |RetentionGroups| - i
  {
    var d := PromotePass(fmt, c, ro, plan, simulate, RetentionGroups[i..], now, isoWeek).0;
    if i < |RetentionGroups| {
      var from := RetentionGroups[i];
      PromotePassStep(fmt, c, ro, plan, simulate, i, now, isoWeek);
      var c1 := PromoteStep(fmt, c, ro, plan, simulate, from, now, isoWeek).value;
      PromotePassStable(fmt, c1, ro, plan, simulate, i + 1, now, now2, isoWeek);
      PromotePassFrame(fmt, c1, ro, plan, simulate, i + 1, now, isoWeek);
      PromoteStepGrows(fmt, c, ro, plan, simulate, from, now, isoWeek);
      assert TierIndex(from) == i;
      assert Entries(d, from) == Entries(c, from);
      PromoteStepStable(fmt, c, ro, plan, simulate, from, now, isoWeek, d);
      StepAtRerun(fmt, d, ro, plan, simulate, from, now, now2, isoWeek);
      PromotePassStep(fmt, d, ro, plan, simulate, i, now2, isoWeek);
    } else {
      assert RetentionGroups[i..] == [];
    }
  }

  /**
   * Promotion is idempotent within a day: once a pass has gone through, a second pass at the
   * same instant, or later the same day on the same side of noon as far as the deferral of
   * `recent` goes, finds every period it would fill already filled, and changes nothing.
   */
  lemma PromoteIdempotent(fmt: NameFormat, c: CollectionDir, ro: bool, plan: Plan, simulate: bool, now: DateTime, now2: DateTime, isoWeek: Date -> int)
    requires RerunSameDay(now, now2)
    requires PromoteAll(fmt, c, ro, plan, simulate, now, isoWeek).1.Pass?
    ensures var d := PromoteAll(fmt, c, ro, plan, simulate, now, isoWeek).0;
      PromoteAll(fmt, d, ro, plan, simulate, now2, isoWeek) == (d, Pass)
  {
    assert RetentionGroups[0..] == RetentionGroups;
    PromotePassStable(fmt, c, ro, plan, simulate, 0, now, now2, isoWeek);
  }

  /* A collection whose `recent` group holds one backup "x" of 09:00, and a plan keeping one daily backup. */
  const NoonStamp := DateTime(2024, 1, 1, 9, 0, 0)
  const NoonFormat := NameFormat("", "", DateFormat(_ => "", s => if s == "x" then Some(NoonStamp) else None))
  const NoonCollection := CollectionDir(map[Recent := GroupDir(["x"], None)], None)
  const NoonPlan := Plan(1, 1, 0, 0)
  const NoonBackup := Backup(Recent, "x", NoonStamp, false, "x", false)

  lemma NoonListing()
    ensures ListBackups(NoonFormat, NoonCollection, Recent, false) == Ok([NoonBackup])
    ensures ListBackups(NoonFormat, NoonCollection, Daily, false) == Ok([])
  {
    var fmt := NoonFormat;
    var b := NoonBackup;
    assert ListedEntries(fmt, ["x"]) == ["x"];
    assert !EndsWith("x", InProgressMark);
    assert ParseName(fmt, "x") == Some(b.stamp) by {
      assert "x"[0..1] == "x";
    }
    assert GetBackup(fmt, Recent, false, "x") == Ok(b);
    assert ParseAll(fmt, Recent, false, ["x"]) == Ok([b]) by {
      assert ["x"][0] == "x" && ["x"][1..] == [];
      assert ParseAll(fmt, Recent, false, []) == Ok([]);
      assert [b] + [] == [b];
    }
    assert SortBy([b], StampOf) == [b];
    assert Filter([b], IsFinalized) == [b];
  }

  /** At 11:00 the pass defers `recent`, and nothing else has anything to promote. */
  lemma NoonMorning(isoWeek: Date -> int)
    ensures PromoteAll(NoonFormat, NoonCollection, false, NoonPlan, false, DateTime(2024, 1, 1, 11, 0, 0), isoWeek) == (NoonCollection, Pass)
  {
    var c := NoonCollection;
    var now := DateTime(2024, 1, 1, 11, 0, 0);
    NoonListing();
    assert PromoteStep(NoonFormat, c, false, NoonPlan, false, Recent, now, isoWeek) == Ok(c);
    assert PromoteStep(NoonFormat, c, false, NoonPlan, false, Daily, now, isoWeek) == Ok(c);
    assert PromoteStep(NoonFormat, c, false, NoonPlan, false, Weekly, now, isoWeek) == Ok(c);
    assert PromoteStep(NoonFormat, c, false, NoonPlan, false, Monthly, now, isoWeek) == Ok(c);
    PromotePassStep(NoonFormat, c, false, NoonPlan, false, 0, now, isoWeek);
    PromotePassStep(NoonFormat, c, false, NoonPlan, false, 1, now, isoWeek);
    PromotePassStep(NoonFormat, c, false, NoonPlan, false, 2, now, isoWeek);
    PromotePassStep(NoonFormat, c, false, NoonPlan, false, 3, now, isoWeek);
    assert RetentionGroups[4..] == [];
    assert RetentionGroups[0..] == RetentionGroups;
  }

  /** At 13:00 the same day the `recent` step copies "x" into `daily`. */
  lemma NoonAfternoon(isoWeek: Date -> int)
    ensures var now2 := DateTime(2024, 1, 1, 13, 0, 0);
      && PromoteStep(NoonFormat, NoonCollection, false, NoonPlan, false, Recent, now2, isoWeek).Ok?
      && Entries(PromoteStep(NoonFormat, NoonCollection, false, NoonPlan, false, Recent, now2, isoWeek).value, Daily) == ["x"]
  {
    var now2 := DateTime(2024, 1, 1, 13, 0, 0);
    NoonListing();
    assert Stamps([NoonBackup]) == [NoonStamp];
    assert DailyPick([NoonStamp], DateOf(now2)) == Some(0);
    assert SelectPromotion(NoonFormat, NoonCollection, false, Recent, Some(Daily), DateOf(now2), isoWeek) == Ok(Some(NoonBackup));
  }

  /**
   * Why a rerun must not cross noon: a pass at 11:00 defers the `recent` backup and changes
   * nothing, while a pass at 13:00 the same day promotes it into `daily`.
   */
  lemma NoonSplitsTheDay(isoWeek: Date -> int)
    ensures var now := DateTime(2024, 1, 1, 11, 0, 0);
      var now2 := DateTime(2024, 1, 1, 13, 0, 0);
      && DateOf(now2) == DateOf(now)
      && PromoteAll(NoonFormat, NoonCollection, false, NoonPlan, false, now, isoWeek) == (NoonCollection, Pass)
      && PromoteAll(NoonFormat, NoonCollection, false, NoonPlan, false, now2, isoWeek).0 != NoonCollection
  {
    var c := NoonCollection;
    var now2 := DateTime(2024, 1, 1, 13, 0, 0);
    NoonMorning(isoWeek);
    NoonAfternoon(isoWeek);
    var c1 := PromoteStep(NoonFormat, c, false, NoonPlan, false, Recent, now2, isoWeek).value;
    PromotePassStep(NoonFormat, c, false, NoonPlan, false, 0, now2, isoWeek);
    assert RetentionGroups[0..] == RetentionGroups;
    assert PromoteStep(NoonFormat, c1, false, NoonPlan, false, Daily, now2, isoWeek) == Ok(c1);
    assert PromoteStep(NoonFormat, c1, false, NoonPlan, false, Weekly, now2, isoWeek) == Ok(c1);
    assert PromoteStep(NoonFormat, c1, false, NoonPlan, false, Monthly, now2, isoWeek) == Ok(c1);
    PromotePassStep(NoonFormat, c1, false, NoonPlan, false, 1, now2, isoWeek);
    PromotePassStep(NoonFormat, c1, false, NoonPlan, false, 2, now2, isoWeek);
    PromotePassStep(NoonFormat, c1, false, NoonPlan, false, 3, now2, isoWeek);
    assert RetentionGroups[4..] == [];
    assert PromoteAll(NoonFormat, c, false, NoonPlan, false, now2, isoWeek).0 == c1;
    assert Entries(c1, Daily) != Entries(c, Daily);
  }

  /** `list_backups_to_delete` over the groups `ts`: each one's `backups[:-keep]`, in order. */
  function DeletionFrom(fmt: NameFormat, c: CollectionDir, ro: bool, plan: Plan, ts: seq<Tier>): Result<seq<Backup>, Error>
    decreases |ts|
  {
    if ts == [] then Ok([])
    else
      var acc :- DeletionFrom(fmt, c, ro, plan, ts[..|ts| - 1]);
      var last := ts[|ts| - 1];
      var bs :- ListBackups(fmt, c, last, ro);
      Ok(acc + DropNewest(bs, Keep(plan, last)))
  }

  function DeletionList(fmt: NameFormat, c: CollectionDir, ro: bool, plan: Plan): Result<seq<Backup>, Error> {
    DeletionFrom(fmt, c, ro, plan, RetentionGroups)
  }

  /**
   * What `backups[:-keep]` evicts from an ascending listing: with keep >= 1 the oldest
   * max(0, n - keep), so that the newest min(n, keep) survive and none of them is older than
   * an evicted one; with keep = 0 nothing at all.
   */
  lemma EvictionSlice(bs: seq<Backup>, keep: int)
    requires SortedBy(bs, StampOf)
    ensures keep == 0 ==> DropNewest(bs, keep) == []
    ensures keep >= 1 ==>
      var cut := if |bs| > keep then |bs| - keep else 0;
      && DropNewest(bs, keep) == bs[..cut]
      && |bs[cut..]| == (if |bs| < keep then |bs| else keep)
      && forall i, j :: 0 <= i < cut <= j < |bs| ==> NoLater(bs[i].stamp, bs[j].stamp)
  {
    if keep >= 1 {
      var cut := if |bs| > keep then |bs| - keep else 0;
      forall i, j | 0 <= i < cut <= j < |bs|
        ensures NoLater(bs[i].stamp, bs[j].stamp)
      {
        assert NoLater(StampOf(bs[i]), StampOf(bs[j]));
      }
    }
  }

  /**
   * The deletion list is, tier by tier in the order recent, daily, weekly, monthly, each
   * listing's `backups[:-keep]`; it holds finalized backups of those four groups only.
   */
  lemma {:induction false} DeletionFromMeaning(fmt: NameFormat, c: CollectionDir, ro: bool, plan: Plan, ts: seq<Tier>)
    requires DeletionFrom(fmt, c, ro, plan, ts).Ok?
    ensures forall t :: t in ts ==> ListBackups(fmt, c, t, ro).Ok?
    ensures forall b :: b in DeletionFrom(fmt, c, ro, plan, ts).value ==>
      !b.inProgress && b.readonly == ro && b.group in ts && b in ListBackups(fmt, c, b.group, ro).value
  {
    if ts != [] {
      var init := ts[..|ts| - 1];
      var last := ts[|ts| - 1];
      assert forall t :: t in init ==> t in ts;
      DeletionFromMeaning(fmt, c, ro, plan, init);
      var bs := ListBackups(fmt, c, last, ro).value;
      ListBackupsMeaning(fmt, c, last, ro);
      forall b | b in DropNewest(bs, Keep(plan, last))
        ensures !b.inProgress && b.readonly == ro && b.group == last && b in bs
      {
        var d := DropNewest(bs, Keep(plan, last));
        var i :| 0 <= i < |d| && d[i] == b;
        assert b in bs;
        ListAllMember(fmt, c, last, ro, b);
      }
      assert forall t :: t in ts ==> t in init || t == last;
    }
  }

  /** A deletion list that succeeds over one more tier is the shorter list plus that tier's slice. */
  lemma DeletionPrefixOk(fmt: NameFormat, c: CollectionDir, ro: bool, plan: Plan, i: nat)
    requires i < |RetentionGroups|
    requires DeletionFrom(fmt, c, ro, plan, RetentionGroups[..i + 1]).Ok?
    ensures DeletionFrom(fmt, c, ro, plan, RetentionGroups[..i]).Ok?
    ensures ListBackups(fmt, c, RetentionGroups[i], ro).Ok?
    ensures DeletionFrom(fmt, c, ro, plan, RetentionGroups[..i + 1]).value ==
      DeletionFrom(fmt, c, ro, plan, RetentionGroups[..i]).value
      + DropNewest(ListBackups(fmt, c, RetentionGroups[i], ro).value, Keep(plan, RetentionGroups[i]))
  {
    DeletionPrefixStep(fmt, c, ro, plan, i);
  }

  /** The first half of the deletion list: the recent and daily slices. */
  lemma DeletionListFirstHalf(fmt: NameFormat, c: CollectionDir, ro: bool, plan: Plan)
    requires DeletionFrom(fmt, c, ro, plan, RetentionGroups[..2]).Ok?
    ensures ListBackups(fmt, c, Recent, ro).Ok? && ListBackups(fmt, c, Daily, ro).Ok?
    ensures DeletionFrom(fmt, c, ro, plan, RetentionGroups[..2]).value ==
      DropNewest(ListBackups(fmt, c, Recent, ro).value, plan.recent)
      + DropNewest(ListBackups(fmt, c, Daily, ro).value, plan.daily)
  {
    DeletionPrefixOk(fmt, c, ro, plan, 1);
    DeletionPrefixOk(fmt, c, ro, plan, 0);
    assert RetentionGroups[0] == Recent && RetentionGroups[1] == Daily;
    assert RetentionGroups[..0] == [];
    var d0 := DropNewest(ListBackups(fmt, c, Recent, ro).value, plan.recent);
    var d1 := DropNewest(ListBackups(fmt, c, Daily, ro).value, plan.daily);
    var none := DeletionFrom(fmt, c, ro, plan, RetentionGroups[..0]).value;
    assert none == [];
    assert DeletionFrom(fmt, c, ro, plan, RetentionGroups[..1]).value == none + d0;
    assert none + d0 == d0;
  }

  /** The last slice of the deletion list is the monthly one. */
  lemma DeletionMonthlyStep(fmt: NameFormat, c: CollectionDir, ro: bool, plan: Plan)
    requires DeletionList(fmt, c, ro, plan).Ok?
    ensures DeletionFrom(fmt, c, ro, plan, RetentionGroups[..3]).Ok? && ListBackups(fmt, c, Monthly, ro).Ok?
    ensures DeletionList(fmt, c, ro, plan).value ==
      DeletionFrom(fmt, c, ro, plan, RetentionGroups[..3]).value
      + DropNewest(ListBackups(fmt, c, Monthly, ro).value, plan.monthly)
  {
    assert RetentionGroups[..4] == RetentionGroups && RetentionGroups[3] == Monthly && Keep(plan, Monthly) == plan.monthly;
    DeletionPrefixOk(fmt, c, ro, plan, 3);
  }

  /** The slice before it is the weekly one. */
  lemma DeletionWeeklyStep(fmt: NameFormat, c: CollectionDir, ro: bool, plan: Plan)
    requires DeletionFrom(fmt, c, ro, plan, RetentionGroups[..3]).Ok?
    ensures DeletionFrom(fmt, c, ro, plan, RetentionGroups[..2]).Ok? && ListBackups(fmt, c, Weekly, ro).Ok?
    ensures DeletionFrom(fmt, c, ro, plan, RetentionGroups[..3]).value ==
      DeletionFrom(fmt, c, ro, plan, RetentionGroups[..2]).value
      + DropNewest(ListBackups(fmt, c, Weekly, ro).value, plan.weekly)
  {
    assert RetentionGroups[2] == Weekly && Keep(plan, Weekly) == plan.weekly;
    DeletionPrefixOk(fmt, c, ro, plan, 2);
  }

  /** The second half of the deletion list: the weekly and monthly slices after the first half. */
  lemma DeletionListSecondHalf(fmt: NameFormat, c: CollectionDir, ro: bool, plan: Plan)
    requires DeletionList(fmt, c, ro, plan).Ok?
    ensures DeletionFrom(fmt, c, ro, plan, RetentionGroups[..2]).Ok?
    ensures ListBackups(fmt, c, Weekly, ro).Ok? && ListBackups(fmt, c, Monthly, ro).Ok?
    ensures DeletionList(fmt, c, ro, plan).value ==
      DeletionFrom(fmt, c, ro, plan, RetentionGroups[..2]).value
      + DropNewest(ListBackups(fmt, c, Weekly, ro).value, plan.weekly)
      + DropNewest(ListBackups(fmt, c, Monthly, ro).value, plan.monthly)
  {
    DeletionMonthlyStep(fmt, c, ro, plan);
    DeletionWeeklyStep(fmt, c, ro, plan);
  }

  /**
   * The deletion list in full: `backups[:-keep]` of the recent, daily, weekly and monthly
   * listings, concatenated in that order.
   */
  lemma DeletionListContents(fmt: NameFormat, c: CollectionDir, ro: bool, plan: Plan)
    requires DeletionList(fmt, c, ro, plan).Ok?
    ensures ListBackups(fmt, c, Recent, ro).Ok? && ListBackups(fmt, c, Daily, ro).Ok?
    ensures ListBackups(fmt, c, Weekly, ro).Ok? && ListBackups(fmt, c, Monthly, ro).Ok?
    ensures DeletionList(fmt, c, ro, plan).value ==
      DropNewest(ListBackups(fmt, c, Recent, ro).value, plan.recent)
      + DropNewest(ListBackups(fmt, c, Daily, ro).value, plan.daily)
      + DropNewest(ListBackups(fmt, c, Weekly, ro).value, plan.weekly)
      + DropNewest(ListBackups(fmt, c, Monthly, ro).value, plan.monthly)
  {
    DeletionListSecondHalf(fmt, c, ro, plan);
    DeletionListFirstHalf(fmt, c, ro, plan);
  }

  /** `Backup.delete` on each backup in turn, stopping at the first that raises. */
  function DeleteAll(c: CollectionDir, bs: seq<Backup>): (CollectionDir, Outcome<Error>)
    decreases |bs|
  {
    if bs == [] then (c, Pass)
    else match DeleteOutcome(c, bs[0])
      case Fail(e) => (c, Fail(e))
      case Pass => DeleteAll(RemoveEntry(c, bs[0].group, bs[0].entry), bs[1..])
  }

  /** An entry of group `t` is removed by deleting `bs`. */
  predicate Doomed(bs: seq<Backup>, t: Tier, e: string) {
    exists b :: b in bs && b.group == t && b.entry == e
  }

  /**
   * Deleting a list that raises nowhere removes exactly the listed backups' directories
   * and keeps every other entry in its order; a readonly backup makes it raise at once.
   */
  lemma {:induction false} DeleteAllMeaning(c: CollectionDir, bs: seq<Backup>)
    ensures bs != [] && bs[0].readonly ==> DeleteAll(c, bs) == (c, Fail(StoreReadonly))
    ensures DeleteAll(c, bs).1.Pass? ==>
      forall t :: Entries(DeleteAll(c, bs).0, t) == Filter(Entries(c, t), e => !Doomed(bs, t, e))
    decreases |bs|
  {
    if bs != [] && DeleteOutcome(c, bs[0]).Pass? {
      var b := bs[0];
      var c1 := RemoveEntry(c, b.group, b.entry);
      DeleteAllMeaning(c1, bs[1..]);
      if DeleteAll(c, bs).1.Pass? {
        forall t
          ensures Entries(DeleteAll(c, bs).0, t) == Filter(Entries(c, t), e => !Doomed(bs, t, e))
        {
          var es := Entries(c, t);
          var es1 := Entries(c1, t);
          assert es1 == if t == b.group then Filter(es, x => x != b.entry) else es;
          FilterCompose(es, t, b, bs);
        }
      }
    } else if bs == [] {
      forall t
        ensures Entries(c, t) == Filter(Entries(c, t), e => !Doomed(bs, t, e))
      {
        FilterKeepsAll(Entries(c, t), e => !Doomed(bs, t, e));
      }
    }
  }

  lemma {:induction false} FilterKeepsAll(s: seq<string>, p: string -> bool)
    requires forall e :: p(e)
    ensures Filter(s, p) == s
  {
    if s != [] {
      FilterKeepsAll(s[1..], p);
      assert s == [s[0]] + s[1..];
    }
  }

  /** Removing `b`'s entry and then the rest of `bs`' entries removes all of `bs`' entries. */
  lemma {:induction false} FilterCompose(es: seq<string>, t: Tier, b: Backup, bs: seq<Backup>)
    requires bs != [] && bs[0] == b
    ensures Filter(if t == b.group then Filter(es, x => x != b.entry) else es, e => !Doomed(bs[1..], t, e))
         == Filter(es, e => !Doomed(bs, t, e))
  {
    var rest: string -> bool := e => !Doomed(bs[1..], t, e);
    var other: string -> bool := x => x != b.entry;
    if es != [] {
      FilterCompose(es[1..], t, b, bs);
      var e := es[0];
      assert Doomed(bs, t, e) <==> (t == b.group && e == b.entry) || Doomed(bs[1..], t, e) by {
        if Doomed(bs, t, e) {
          var w :| w in bs && w.group == t && w.entry == e;
          if w != b {
            assert w in bs[1..];
          }
        }
        if Doomed(bs[1..], t, e) {
          var w :| w in bs[1..] && w.group == t && w.entry == e;
          assert w in bs;
        }
      }
      var head := if other(e) then [e] else [];
      if t == b.group {
        assert Filter(es, other) == head + Filter(es[1..], other);
        FilterAppend(head, Filter(es[1..], other), rest);
        assert Filter(head, rest) == if other(e) && rest(e) then [e] else [];
      }
    }
  }

  /** `cleanup_backups`: delete the deletion list unless simulating. */
  function CleanupSpec(fmt: NameFormat, c: CollectionDir, ro: bool, plan: Plan, simulate: bool): (CollectionDir, Outcome<Error>) {
    match DeletionList(fmt, c, ro, plan)
    case Err(e) => (c, Fail(e))
    case Ok(dl) => if simulate then (c, Pass) else DeleteAll(c, dl)
  }
  /** Rotation of one opened collection: promote, then clean up unless promoting raised. */
  function RotateCollection(fmt: NameFormat, c: CollectionDir, ro: bool, plan: Plan, simulate: bool, now: DateTime, isoWeek: Date -> int): (CollectionDir, Outcome<Error>) {
    var promoted := PromoteAll(fmt, c, ro, plan, simulate, now, isoWeek);
    if promoted.1.Fail? then promoted else CleanupSpec(fmt, promoted.0, ro, plan, simulate)
  }


  /** Rotation is promotion, then, unless promotion raised, cleanup of the promoted collection. */
  lemma RotateComposes(fmt: NameFormat, c0: CollectionDir, ro: bool, plan: Plan, simulate: bool, now: DateTime, isoWeek: Date -> int,
                       c1: CollectionDir, r1: Outcome<Error>, c2: CollectionDir, r2: Outcome<Error>)
    requires (c1, r1) == PromoteAll(fmt, c0, ro, plan, simulate, now, isoWeek)
    requires r1.Pass? ==> (c2, r2) == CleanupSpec(fmt, c1, ro, plan, simulate)
    requires r1.Fail? ==> c2 == c1 && r2 == r1
    ensures RotateCollection(fmt, c0, ro, plan, simulate, now, isoWeek) == (c2, r2)
  {
  }

  /**
   * `cleanup_backups` as a whole: simulate mode deletes nothing; a listing error is raised
   * before anything is deleted; in a readonly store the first deletion raises; otherwise
   * exactly the directories of the deletion list disappear and every other entry stays.
   */
  lemma CleanupMeaning(fmt: NameFormat, c: CollectionDir, ro: bool, plan: Plan, simulate: bool)
    ensures simulate ==> CleanupSpec(fmt, c, ro, plan, simulate).0 == c
    ensures DeletionList(fmt, c, ro, plan).Err? ==>
      CleanupSpec(fmt, c, ro, plan, simulate) == (c, Fail(DeletionList(fmt, c, ro, plan).error))
    ensures !simulate && ro && DeletionList(fmt, c, ro, plan).Ok? && DeletionList(fmt, c, ro, plan).value != [] ==>
      CleanupSpec(fmt, c, ro, plan, simulate) == (c, Fail(StoreReadonly))
    ensures !simulate && CleanupSpec(fmt, c, ro, plan, simulate).1.Pass? ==>
      && DeletionList(fmt, c, ro, plan).Ok?
      && forall t :: Entries(CleanupSpec(fmt, c, ro, plan, simulate).0, t) ==
           Filter(Entries(c, t), e => !Doomed(DeletionList(fmt, c, ro, plan).value, t, e))
  {
    var dl := DeletionList(fmt, c, ro, plan);
    if dl.Ok? {
      DeletionFromMeaning(fmt, c, ro, plan, RetentionGroups);
      if dl.value != [] {
        assert dl.value[0] in dl.value;
      }
      DeleteAllMeaning(c, dl.value);
    }
  }

  /** `DeletionFrom` over one more tier of the chain: the previous list, then the next listing's slice. */
  lemma DeletionPrefixStep(fmt: NameFormat, c: CollectionDir, ro: bool, plan: Plan, i: nat)
    requires i < |RetentionGroups|
    ensures DeletionFrom(fmt, c, ro, plan, RetentionGroups[..i + 1]) ==
      (var acc :- DeletionFrom(fmt, c, ro, plan, RetentionGroups[..i]);
       var bs :- ListBackups(fmt, c, RetentionGroups[i], ro);
       Ok(acc + DropNewest(bs, Keep(plan, RetentionGroups[i]))))
  {
    assert RetentionGroups[..i + 1][..i] == RetentionGroups[..i];
  }

  /** A listing that raises ends the deletion list's computation with that error. */
  lemma {:induction false} DeletionErrorSticks(fmt: NameFormat, c: CollectionDir, ro: bool, plan: Plan, i: nat, j: nat)
    requires i <= j <= |RetentionGroups|
    requires DeletionFrom(fmt, c, ro, plan, RetentionGroups[..i]).Err?
    ensures DeletionFrom(fmt, c, ro, plan, RetentionGroups[..j]) == DeletionFrom(fmt, c, ro, plan, RetentionGroups[..i])
    decreases j
  {
    if j > i {
      DeletionErrorSticks(fmt, c, ro, plan, i, j - 1);
      DeletionPrefixStep(fmt, c, ro, plan, j - 1);
    }
  }

  /** `PromotePass` over the chain from position `i`: one step, then the rest. */
  lemma PromotePassStep(fmt: NameFormat, c: CollectionDir, ro: bool, plan: Plan, simulate: bool, i: nat, now: DateTime, isoWeek: Date -> int)
    requires i < |RetentionGroups|
    ensures PromotePass(fmt, c, ro, plan, simulate, RetentionGroups[i..], now, isoWeek) ==
      (var step := PromoteStep(fmt, c, ro, plan, simulate, RetentionGroups[i], now, isoWeek);
       if step.Err? then (c, Fail(step.error))
       else PromotePass(fmt, step.value, ro, plan, simulate, RetentionGroups[i + 1..], now, isoWeek))
  {
    assert RetentionGroups[i..][0] == RetentionGroups[i] && RetentionGroups[i..][1..] == RetentionGroups[i + 1..];
  }

  /** Two updates of the same key compose into one. */
  lemma OnlyOneKeyChanged(m0: map<string, CollectionDir>, m1: map<string, CollectionDir>, m2: map<string, CollectionDir>, w: string)
    requires w in m1 && w in m2
    requires m1 == m0[w := m1[w]] && m2 == m1[w := m2[w]]
    ensures m2 == m0[w := m2[w]]
  {
  }

  /**
   * The state side of a `BackupRotation`: which collection of which store, with which plan.
   * Its fields never change; its methods change the store.  The collection exists, as the
   * rotation is made from `get_collection`.
   */
  class Rotation {
    const store: Store
    const world: string
    const plan: Plan
    const simulate: bool
    const isoWeek: Date -> int

    constructor (store: Store, world: string, plan: Plan, simulate: bool, isoWeek: Date -> int)
      ensures this.store == store && this.world == world && this.plan == plan
      ensures this.simulate == simulate && this.isoWeek == isoWeek
    {
      this.store := store;
      this.world := world;
      this.plan := plan;
      this.simulate := simulate;
      this.isoWeek := isoWeek;
    }

    /** `list_backups_to_delete`: the loop that accumulates `backups[:-keep]` with `+=`. */
    method ListBackupsToDelete() returns (r: Result<seq<Backup>, Error>)
      ensures r == DeletionList(store.Format(world), Coll(store.collections, world), store.readonly, plan)
    {
      var fmt, c, ro := store.Format(world), Coll(store.collections, world), store.readonly;
      var deletion: seq<Backup> := [];
      for i := 0 to |RetentionGroups|
        invariant DeletionFrom(fmt, c, ro, plan, RetentionGroups[..i]) == Ok(deletion)
      {
        var group := RetentionGroups[i];
        DeletionPrefixStep(fmt, c, ro, plan, i);
        var backups := ListBackups(fmt, c, group, ro);
        if backups.Err? {
          DeletionErrorSticks(fmt, c, ro, plan, i + 1, |RetentionGroups|);
          assert RetentionGroups[..|RetentionGroups|] == RetentionGroups;
          return Err(backups.error);
        }
        deletion := deletion + DropNewest(backups.value, Keep(plan, group));
      }
      assert RetentionGroups[..|RetentionGroups|] == RetentionGroups;
      r := Ok(deletion);
    }

    /** `select_promotion_backup`, with the daily rule run as the source's loop. */
    method SelectPromotionBackup(from: Tier, to: Option<Tier>, date: Date) returns (r: Result<Option<Backup>, Error>)
      ensures r == SelectPromotion(store.Format(world), Coll(store.collections, world), store.readonly, from, to, date, isoWeek)
    {
      var backups := ListBackups(store.Format(world), Coll(store.collections, world), from, store.readonly);
      if backups.Err? {
        return Err(backups.error);
      }
      var bs := backups.value;
      if to.None? {
        return Ok(None);
      }
      var k: Option<nat>;
      if to.value == Daily {
        k := SelectDaily(Stamps(bs), date);
      } else if to.value == Weekly {
        k := WeeklyPick(Stamps(bs), date, isoWeek);
      } else if to.value == Monthly {
        k := MonthlyPick(Stamps(bs), date);
      } else {
        return Err(UnknownRetainGroup);
      }
      r := if k.Some? then Ok(Some(bs[k.value])) else Ok(None);
    }

    /** `promote_backup_to_retain_group`: copy under the same name and repoint `latest`, unless simulating. */
    method PromoteBackupToRetainGroup(b: Backup, to: Tier) returns (r: Outcome<Error>)
      requires world in store.collections
      modifies store
      ensures world in store.collections
      ensures simulate ==> r == Pass && store.collections == old(store.collections)
      ensures !simulate ==> match CopyInto(old(store.collections)[world], b, to)
        case Err(e) => r == Fail(e) && store.collections == old(store.collections)
        case Ok(c1) => r == Pass && store.collections == old(store.collections)[world := c1]
    {
      if simulate {
        return Pass;
      }
      var copied := CopyInto(store.collections[world], b, to);
      if copied.Err? {
        return Fail(copied.error);
      }
      store.collections := store.collections[world := copied.value];
      r := Pass;
    }

    /** The body of `promote_backups`' loop for the source group `from`. */
    method PromoteFrom(from: Tier, now: DateTime) returns (r: Outcome<Error>)
      requires world in store.collections
      modifies store
      ensures world in store.collections
      ensures store.collections == old(store.collections)[world := store.collections[world]]
      ensures var step := PromoteStep(store.Format(world), old(store.collections)[world], store.readonly, plan, simulate, from, now, isoWeek);
        && (step.Err? ==> r == Fail(step.error) && store.collections[world] == old(store.collections)[world])
        && (step.Ok? ==> r == Pass && store.collections[world] == step.value)
    {
      var fmt, c, ro := store.Format(world), store.collections[world], store.readonly;
      var date := DateOf(now);
      ghost var step := PromoteStep(fmt, c, ro, plan, simulate, from, now, isoWeek);
      var should := ShouldPromote(fmt, c, ro, plan, from, date, now, isoWeek);
      if should.Err? {
        assert step == Err(should.error);
        return Fail(should.error);
      }
      if !should.value {
        assert step == Ok(c);
        assert store.collections == old(store.collections)[world := c];
        return Pass;
      }
      var to := NextGroup(plan, from);
      var candidate := SelectPromotionBackup(from, to, date);
      if candidate.Err? {
        assert step == Err(candidate.error);
        return Fail(candidate.error);
      }
      if candidate.value.None? {
        assert step == Ok(c);
        assert store.collections == old(store.collections)[world := c];
        return Pass;
      }
      assert simulate ==> step == Ok(c);
      assert !simulate ==> step == CopyInto(c, candidate.value.value, to.value);
      r := PromoteBackupToRetainGroup(candidate.value.value, to.value);
    }

    /** `promote_backups`: for each tier in order, promote into the next tier when the guard allows. */
    method PromoteBackups(now: DateTime) returns (r: Outcome<Error>)
      requires world in store.collections
      modifies store
      ensures world in store.collections
      ensures store.collections == old(store.collections)[world := store.collections[world]]
      ensures (store.collections[world], r) ==
        PromoteAll(store.Format(world), old(store.collections)[world], store.readonly, plan, simulate, now, isoWeek)
    {
      var fmt, ro := store.Format(world), store.readonly;
      var goal := PromoteAll(fmt, store.collections[world], ro, plan, simulate, now, isoWeek);
      for i := 0 to |RetentionGroups|
        invariant world in store.collections
        invariant store.collections == old(store.collections)[world := store.collections[world]]
        invariant PromotePass(fmt, store.collections[world], ro, plan, simulate, RetentionGroups[i..], now, isoWeek) == goal
      {
        ghost var before := store.collections;
        PromotePassStep(fmt, before[world], ro, plan, simulate, i, now, isoWeek);
        var promoted := PromoteFrom(RetentionGroups[i], now);
        OnlyOneKeyChanged(old(store.collections), before, store.collections, world);
        if promoted.Fail? {
          return promoted;
        }
      }
      assert RetentionGroups[|RetentionGroups|..] == [];
      r := Pass;
    }

    /** `cleanup_backups`: delete every backup of the deletion list, unless simulating. */
    method CleanupBackups() returns (r: Outcome<Error>)
      requires world in store.collections
      modifies store
      ensures var (c1, outcome) := CleanupSpec(store.Format(world), old(store.collections)[world], store.readonly, plan, simulate);
        r == outcome && store.collections == old(store.collections)[world := c1]
    {
      var toDelete := ListBackupsToDelete();
      if toDelete.Err? {
        return Fail(toDelete.error);
      }
      if simulate {
        return Pass;
      }
      r := DeleteBackups(toDelete.value);
    }

    /** The deletion loop of `cleanup_backups`: each backup in turn, stopping at the first that raises. */
    method DeleteBackups(bs: seq<Backup>) returns (r: Outcome<Error>)
      requires world in store.collections
      modifies store
      ensures var (c1, outcome) := DeleteAll(old(store.collections)[world], bs);
        r == outcome && store.collections == old(store.collections)[world := c1]
    {
      var goal := DeleteAll(store.collections[world], bs);
      for i := 0 to |bs|
        invariant world in store.collections
        invariant store.collections == old(store.collections)[world := store.collections[world]]
        invariant DeleteAll(store.collections[world], bs[i..]) == goal
      {
        assert bs[i..][0] == bs[i] && bs[i..][1..] == bs[i + 1..];
        var deleted := store.Delete(world, bs[i]);
        if deleted.Fail? {
          return deleted;
        }
      }
      r := Pass;
    }

    /** Promotion followed by cleanup, as `rotate_backups` does for one world. */
    method Rotate(now: DateTime) returns (r: Outcome<Error>)
      requires world in store.collections
      modifies store
      ensures var rotated := RotateCollection(store.Format(world), old(store.collections)[world], store.readonly, plan, simulate, now, isoWeek);
        r == rotated.1 && store.collections == old(store.collections)[world := rotated.0]
    {
      ghost var m0 := store.collections;
      r := PromoteBackups(now);
      ghost var m1 := store.collections;
      ghost var r1 := r;
      if r.Pass? {
        r := CleanupBackups();
        assert m0[world := m1[world]][world := store.collections[world]] == m0[world := store.collections[world]];
      }
      RotateComposes(store.Format(world), m0[world], store.readonly, plan, simulate, now, isoWeek, m1[world], r1, store.collections[world], r);
    }
  }
}

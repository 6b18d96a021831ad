/**
 * The promotion-candidate rules shared word for word by `BackupRotation.select_promotion_backup`
 * and the legacy `BackupRoll.select_promote_*`, stated over the ascending sequence of
 * timestamps of a listing.  Each rule returns the index of the chosen backup.
 */
module Policy {
  import opened Wrappers
  import opened Calendar

  /** Index of the first timestamp satisfying `p`. */
  function FirstWhere(s: seq<DateTime>, p: DateTime -> bool): (r: Option<nat>)
    ensures r.Some? ==> r.value < |s| && p(s[r.value])
    ensures r.Some? ==> forall j :: 0 <= j < r.value ==> !p(s[j])
    ensures r.None? ==> forall j :: 0 <= j < |s| ==> !p(s[j])
  {
    if s == [] then None
    else if p(s[0]) then Some(0)
    else match FirstWhere(s[1..], p)
      case None => None
      case Some(k) => Some(k + 1)
  }

  /** Index of the last timestamp satisfying `p`. */
  function LastWhere(s: seq<DateTime>, p: DateTime -> bool): (r: Option<nat>)
    ensures r.Some? ==> r.value < |s| && p(s[r.value])
    ensures r.Some? ==> forall j :: r.value < j < |s| ==> !p(s[j])
    ensures r.None? ==> forall j :: 0 <= j < |s| ==> !p(s[j])
  {
    if s == [] then None
    else if p(s[|s| - 1]) then Some(|s| - 1)
    else LastWhere(s[..|s| - 1], p)
  }

  predicate OnDate(t: DateTime, date: Date) {
    DateOf(t) == date
  }

  /** The cut-off of the daily rule: a backup taken before 13:00. */
  predicate BeforeOnePm(t: DateTime) {
    t.hour < 13
  }

  /** Reference definition of the daily rule: the last backup of `date` taken before 13:00, else the first of `date`. */
  function DailyPick(s: seq<DateTime>, date: Date): (r: Option<nat>)
    ensures r.Some? ==> r.value < |s|
  {
    match LastWhere(s, t => OnDate(t, date) && BeforeOnePm(t))
    case Some(k) => Some(k)
    case None => FirstWhere(s, t => OnDate(t, date))
  }

  /** The weekly rule: the first backup whose ISO week number is `date`'s; the year is not compared. */
  function WeeklyPick(s: seq<DateTime>, date: Date, isoWeek: Date -> int): (r: Option<nat>)
    ensures r.Some? ==> r.value < |s|
  {
    FirstWhere(s, t => isoWeek(DateOf(t)) == isoWeek(date))
  }

  /** The monthly rule: the first backup whose month is `date`'s; the year is not compared. */
  function MonthlyPick(s: seq<DateTime>, date: Date): (r: Option<nat>)
    ensures r.Some? ==> r.value < |s|
  {
    FirstWhere(s, (t: DateTime) => t.month == date.month)
  }

  lemma FirstWhereUnique(s: seq<DateTime>, p: DateTime -> bool, k: nat)
    requires k < |s| && p(s[k]) && forall j :: 0 <= j < k ==> !p(s[j])
    ensures FirstWhere(s, p) == Some(k)
  {
  }

  lemma LastWhereUnique(s: seq<DateTime>, p: DateTime -> bool, k: nat)
    requires k < |s| && p(s[k]) && forall j :: k < j < |s| ==> !p(s[j])
    ensures LastWhere(s, p) == Some(k)
  {
  }

  /**
   * What the daily rule promises: nothing is picked iff no backup is dated `date`; otherwise
   * the pick is dated `date`, and it is the last one before 13:00 if there is one, else the first.
   */
  lemma DailyPickMeaning(s: seq<DateTime>, date: Date)
    ensures DailyPick(s, date).None? <==> forall j :: 0 <= j < |s| ==> !OnDate(s[j], date)
    ensures DailyPick(s, date).Some? ==> DailyPick(s, date).value < |s| && OnDate(s[DailyPick(s, date).value], date)
    ensures (exists j :: 0 <= j < |s| && OnDate(s[j], date) && BeforeOnePm(s[j])) ==>
      var k := DailyPick(s, date).value;
      BeforeOnePm(s[k]) && forall j :: k < j < |s| && OnDate(s[j], date) ==> !BeforeOnePm(s[j])
    ensures (forall j :: 0 <= j < |s| && OnDate(s[j], date) ==> !BeforeOnePm(s[j])) ==>
      DailyPick(s, date) == FirstWhere(s, t => OnDate(t, date))
  {
    var morning := t => OnDate(t, date) && BeforeOnePm(t);
    var onDate := t => OnDate(t, date);
    match LastWhere(s, morning)
    case Some(k) =>
    case None =>
      assert forall j :: 0 <= j < |s| ==> !morning(s[j]);
  }

  /**
   * The loop of `select_promotion_backup` / `select_promote_daily_backup`: keep the first
   * backup of the date, then let every later one before 13:00 replace it.
   */
  method SelectDaily(s: seq<DateTime>, date: Date) returns (k: Option<nat>)
    ensures k == DailyPick(s, date)
  {
    k := None;
    for i := 0 to |s|
      invariant k == DailyPick(s[..i], date)
    {
      assert s[..i + 1] == s[..i] + [s[i]];
      DailyPickExtend(s[..i], s[i], date);
      if OnDate(s[i], date) {
        if k.None? || BeforeOnePm(s[i]) {
          k := Some(i);
        }
      }
    }
    assert s[..|s|] == s;
  }

  /** How the daily pick changes when one more (later) backup is listed. */
  lemma DailyPickExtend(s: seq<DateTime>, t: DateTime, date: Date)
    ensures DailyPick(s + [t], date) ==
      if !OnDate(t, date) then DailyPick(s, date)
      else if DailyPick(s, date).None? || BeforeOnePm(t) then Some(|s|)
      else DailyPick(s, date)
  {
    var s' := s + [t];
    var morning := t => OnDate(t, date) && BeforeOnePm(t);
    var onDate := t => OnDate(t, date);
    assert s'[..|s'| - 1] == s;
    DailyPickMeaning(s, date);
    if OnDate(t, date) && !BeforeOnePm(t) {
      match LastWhere(s, morning)
      case Some(k) =>
        LastWhereUnique(s', morning, k);
      case None =>
        assert LastWhere(s', morning) == None;
        match FirstWhere(s, onDate)
        case Some(k) =>
          FirstWhereUnique(s', onDate, k);
        case None =>
          FirstWhereUnique(s', onDate, |s|);
    } else if !OnDate(t, date) {
      match LastWhere(s, morning)
      case Some(k) =>
      case None =>
        match FirstWhere(s, onDate)
        case Some(k) =>
          FirstWhereUnique(s', onDate, k);
        case None =>
          assert FirstWhere(s', onDate) == None;
    }
  }

  /** The two daily cases worked through by hand in the rule's documentation. */
  lemma DailyPickExamples(d: Date)
    ensures DailyPick([DateTime(d.year, d.month, d.day, 9, 0, 0),
                       DateTime(d.year, d.month, d.day, 12, 30, 0),
                       DateTime(d.year, d.month, d.day, 14, 0, 0)], d) == Some(1)
    ensures DailyPick([DateTime(d.year, d.month, d.day, 14, 0, 0)], d) == Some(0)
  {
    var a := DateTime(d.year, d.month, d.day, 9, 0, 0);
    var b := DateTime(d.year, d.month, d.day, 12, 30, 0);
    var c := DateTime(d.year, d.month, d.day, 14, 0, 0);
    LastWhereUnique([a, b, c], t => OnDate(t, d) && BeforeOnePm(t), 1);
    assert LastWhere([c], t => OnDate(t, d) && BeforeOnePm(t)) == None;
    FirstWhereUnique([c], t => OnDate(t, d), 0);
  }

  /** The weekly and monthly picks are the earliest backup of the period (ascending input). */
  lemma PeriodPickMeaning(s: seq<DateTime>, date: Date, isoWeek: Date -> int)
    ensures WeeklyPick(s, date, isoWeek).Some? <==> exists j :: 0 <= j < |s| && isoWeek(DateOf(s[j])) == isoWeek(date)
    ensures WeeklyPick(s, date, isoWeek).Some? ==>
      var k := WeeklyPick(s, date, isoWeek).value;
      isoWeek(DateOf(s[k])) == isoWeek(date) && forall j :: 0 <= j < k ==> isoWeek(DateOf(s[j])) != isoWeek(date)
    ensures MonthlyPick(s, date).Some? <==> exists j :: 0 <= j < |s| && s[j].month == date.month
    ensures MonthlyPick(s, date).Some? ==>
      var k := MonthlyPick(s, date).value;
      s[k].month == date.month && forall j :: 0 <= j < k ==> s[j].month != date.month
  {
    var week := t => isoWeek(DateOf(t)) == isoWeek(date);
    var month := (t: DateTime) => t.month == date.month;
    if WeeklyPick(s, date, isoWeek).None? {
      assert forall j :: 0 <= j < |s| ==> !week(s[j]);
    }
    if MonthlyPick(s, date).None? {
      assert forall j :: 0 <= j < |s| ==> !month(s[j]);
    }
  }

  /** Week and month matching ignore the year: a backup from another year can be picked. */
  lemma PeriodPickIgnoresYear(date: Date, isoWeek: Date -> int)
    ensures MonthlyPick([DateTime(date.year - 1, date.month, 1, 0, 0, 0)], date) == Some(0)
    ensures isoWeek(Date(date.year - 1, date.month, date.day)) == isoWeek(date) ==>
      WeeklyPick([DateTime(date.year - 1, date.month, date.day, 0, 0, 0)], date, isoWeek) == Some(0)
  {
    var s := [DateTime(date.year - 1, date.month, date.day, 0, 0, 0)];
    PeriodPickMeaning(s, date, isoWeek);
    if isoWeek(DateOf(s[0])) == isoWeek(date) {
      assert WeeklyPick(s, date, isoWeek).Some?;
    }
  }
}

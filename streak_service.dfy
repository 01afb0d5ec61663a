/**
 * `calculateStreak`: the week streak, the Monday-first week strip and the
 * activity stats shown on the daily check-in page.
 *
 * Dates are calendar day numbers (consecutive days differ by one); a check-in
 * is the day its timestamp falls on. The wall clock becomes two parameters:
 * `today`, and `weekStart`, the Monday of the current week.
 */
module StreakService {

  type Day = int

  /** One cell of the week strip; `letter` is the source's one-letter `label`. */
  datatype WeekDay = WeekDay(date: Day, letter: string, isCompleted: bool, isToday: bool, isPast: bool)

  datatype Stats = Stats(days: nat, lessons: nat, quizzes: nat, minutes: nat)

  datatype StreakData = StreakData(currentStreak: nat, weekDays: seq<WeekDay>, stats: Stats)

  /** What date-fns writes for the `EEEEE` token, Monday first. */
  const WeekLetters: seq<string> := ["M", "T", "W", "T", "F", "S", "S"]

  /** The page's initial `streakData`, shown until a history has been fetched. */
  const NoStreak: StreakData := StreakData(0, [], Stats(0, 0, 0, 0))

  /** The day the backwards count starts from: today if there is a check-in today, else yesterday. */
  function StartDay(checkIns: seq<Day>, today: Day): (d: Day)
    ensures d == today <==> today in checkIns
    ensures d != today ==> d == today - 1
  {
    if today in checkIns then today else today - 1
  }

  /** The earliest check-in day. */
  function Earliest(checkIns: seq<Day>): (m: Day)
    requires |checkIns| > 0
    ensures m in checkIns
    ensures forall i :: 0 <= i < |checkIns| ==> m <= checkIns[i]
  {
    if |checkIns| == 1 then checkIns[0]
    else
      var rest := Earliest(checkIns[1..]);
      assert rest in checkIns;
      if checkIns[0] <= rest then checkIns[0] else rest
  }

  /** Bounds the backwards walk from `day`: it cannot go below the earliest check-in. */
  function StepsLeft(checkIns: seq<Day>, day: Day): nat {
    if day in checkIns then day - Earliest(checkIns) + 1 else 0
  }

  /**
   * The number of consecutive days ending at `day`, walking backwards, that
   * each have at least one check-in.
   */
  function RunLength(checkIns: seq<Day>, day: Day): nat
    decreases StepsLeft(checkIns, day)
  {
    if day in checkIns then 1 + RunLength(checkIns, day - 1) else 0
  }

  /** The days counted by RunLength all have check-ins, and the day just before them has none. */
  lemma {:induction false} RunLengthIsMaximalRun(checkIns: seq<Day>, day: Day)
    ensures forall d :: day - RunLength(checkIns, day) < d <= day ==> d in checkIns
    ensures day - RunLength(checkIns, day) !in checkIns
    decreases StepsLeft(checkIns, day)
  {
    if day in checkIns {
      RunLengthIsMaximalRun(checkIns, day - 1);
    }
  }

  /** Any count with that property is RunLength: the unbroken run is unique. */
  lemma RunLengthUnique(checkIns: seq<Day>, day: Day, k: nat)
    requires forall d :: day - k < d <= day ==> d in checkIns
    requires day - k !in checkIns
    ensures k == RunLength(checkIns, day)
  {
    RunLengthIsMaximalRun(checkIns, day);
  }

  /** The run depends only on which days have check-ins. */
  lemma RunLengthSameDays(a: seq<Day>, b: seq<Day>, day: Day)
    requires forall d :: d in a <==> d in b
    ensures RunLength(a, day) == RunLength(b, day)
  {
    RunLengthIsMaximalRun(a, day);
    RunLengthUnique(b, day, RunLength(a, day));
  }

  /** The stats derived from the number of entries; `quizzes` is `Math.floor(days * 1.5)`. */
  function StatsFor(entries: nat): (s: Stats)
    ensures s.days == entries && s.lessons == 2 * entries && s.minutes == 15 * entries
    ensures 2 * s.quizzes <= 3 * entries < 2 * s.quizzes + 2
  {
    Stats(entries, 2 * entries, 3 * entries / 2, 15 * entries)
  }

  /** Cell `i` of the week strip. */
  function WeekCell(checkIns: seq<Day>, today: Day, weekStart: Day, i: nat): WeekDay
    requires i < 7
  {
    var date := weekStart + i;
    WeekDay(date, WeekLetters[i], date in checkIns, date == today, date < today)
  }

  /** The seven cells starting at Monday of the current week. */
  function WeekView(checkIns: seq<Day>, today: Day, weekStart: Day): (w: seq<WeekDay>)
    ensures |w| == 7
    ensures w[0].date == weekStart
    ensures forall i :: 0 <= i < 6 ==> w[i + 1].date == w[i].date + 1
    ensures forall i :: 0 <= i < 7 ==> (w[i].isCompleted <==> w[i].date in checkIns)
    ensures forall i :: 0 <= i < 7 ==> !(w[i].isPast && w[i].isToday)
    ensures forall i :: 0 <= i < 7 ==> (w[i].isToday <==> w[i].date == today)
    ensures forall i :: 0 <= i < 7 ==> (w[i].isPast <==> w[i].date < today)
  {
    seq(7, i requires 0 <= i < 7 => WeekCell(checkIns, today, weekStart, i))
  }

  /** What `calculateStreak` returns, as a function of its inputs. */
  function Streak(checkIns: seq<Day>, today: Day, weekStart: Day): StreakData {
    var days := RunLength(checkIns, StartDay(checkIns, today));
    StreakData(days / 7, WeekView(checkIns, today, weekStart), StatsFor(|checkIns|))
  }

  /**
   * `calculateStreak(checkInDates)`: counts back from the start day while the
   * current day has a check-in, then converts the count to whole weeks.
   */
  method CalculateStreak(checkIns: seq<Day>, today: Day, weekStart: Day) returns (r: StreakData)
    ensures r == Streak(checkIns, today, weekStart)
  {
    var hasCheckInToday := today in checkIns;
    var currentDate := if hasCheckInToday then today else today - 1;
    var currentStreak: nat := 0;
    while currentDate in checkIns
      invariant currentStreak + RunLength(checkIns, currentDate)
                == RunLength(checkIns, StartDay(checkIns, today))
      decreases StepsLeft(checkIns, currentDate)
    {
      currentStreak := currentStreak + 1;
      currentDate := currentDate - 1;
    }
    r := StreakData(currentStreak / 7, WeekView(checkIns, today, weekStart), StatsFor(|checkIns|));
  }

  /**
   * The streak counted in whole weeks of the unbroken run of checked-in days
   * ending at the start day; a run shorter than a week gives 0.
   */
  lemma StreakCountsWholeWeeks(checkIns: seq<Day>, today: Day, weekStart: Day, days: nat)
    requires forall d :: StartDay(checkIns, today) - days < d <= StartDay(checkIns, today) ==> d in checkIns
    requires StartDay(checkIns, today) - days !in checkIns
    ensures Streak(checkIns, today, weekStart).currentStreak == days / 7
    ensures days < 7 ==> Streak(checkIns, today, weekStart).currentStreak == 0
  {
    RunLengthUnique(checkIns, StartDay(checkIns, today), days);
  }

  /** Reordering the input changes nothing, so sorting it first has no effect on the result. */
  lemma StreakIgnoresOrder(a: seq<Day>, b: seq<Day>, today: Day, weekStart: Day)
    requires multiset(a) == multiset(b)
    ensures Streak(a, today, weekStart) == Streak(b, today, weekStart)
  {
    assert forall d :: d in a <==> d in multiset(a);
    assert forall d :: d in b <==> d in multiset(b);
    assert |a| == |multiset(a)| == |b|;
    assert StartDay(a, today) == StartDay(b, today);
    RunLengthSameDays(a, b, StartDay(a, today));
    assert WeekView(a, today, weekStart) == WeekView(b, today, weekStart);
  }

  /**
   * A second check-in on an already checked-in day adds one to `stats.days`
   * but nothing to the streak or the week strip.
   */
  lemma SameDayCountsOnceForStreak(checkIns: seq<Day>, d: Day, today: Day, weekStart: Day)
    requires d in checkIns
    ensures Streak(checkIns + [d], today, weekStart).currentStreak == Streak(checkIns, today, weekStart).currentStreak
    ensures Streak(checkIns + [d], today, weekStart).weekDays == Streak(checkIns, today, weekStart).weekDays
    ensures Streak(checkIns + [d], today, weekStart).stats.days == Streak(checkIns, today, weekStart).stats.days + 1
  {
    var more := checkIns + [d];
    assert forall x :: x in more <==> x in checkIns;
    assert StartDay(more, today) == StartDay(checkIns, today);
    RunLengthSameDays(more, checkIns, StartDay(checkIns, today));
    assert WeekView(more, today, weekStart) == WeekView(checkIns, today, weekStart);
  }

  /** With no check-ins at all: streak 0, all stats 0, no day completed. */
  lemma EmptyHistory(today: Day, weekStart: Day)
    ensures Streak([], today, weekStart).currentStreak == 0
    ensures Streak([], today, weekStart).stats == Stats(0, 0, 0, 0)
    ensures forall i :: 0 <= i < 7 ==> !Streak([], today, weekStart).weekDays[i].isCompleted
  {
  }
}

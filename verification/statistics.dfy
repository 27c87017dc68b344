/**
 * The pure parts of `StatisticsEngine` (core/statistics.py). Each database
 * query is replaced by the list it would return, and `datetime.now()` by the
 * day number `today`. Calendar dates are day numbers, so "the day before" is
 * subtraction by one.
 */
module Statistics {
  import opened Wrappers
  import opened Calendar

  // ---------------------------------------------------------------------------
  // get_daily_stats

  /** One row of the daily review statistics. */
  datatype DayStat = DayStat(date: int, count: int, avgQuality: real)

  /** The zero entry that fills a day with no reviews. */
  function EmptyDay(date: int): DayStat {
    DayStat(date, 0, 0.0)
  }

  /** The date of entry `i` of a `days`-long window ending at `today`. */
  function WindowDate(today: int, days: int, i: int): int {
    today - (days - i - 1)
  }

  /** The entry for `date`: the first row with that date, else the zero entry. */
  function EntryFor(stats: seq<DayStat>, date: int): (e: DayStat)
    ensures e.date == date
    ensures (forall j :: 0 <= j < |stats| ==> stats[j].date != date) ==> e == EmptyDay(date)
    ensures forall j :: 0 <= j < |stats| && stats[j].date == date ==>
              (forall k :: 0 <= k < j ==> stats[k].date != date) ==> e == stats[j]
  {
    if stats == [] then EmptyDay(date)
    else if stats[0].date == date then stats[0]
    else
      var e := EntryFor(stats[1..], date);
      assert forall j :: 1 <= j < |stats| ==> stats[j] == stats[1..][j - 1];
      e
  }

  /**
   * `get_daily_stats(days)`, whose `days` defaults to 7: one entry per day of
   * the window, oldest first, each the first matching row of `stats` or a zero
   * entry. Stepping back `days - 1` days from `today` raises `OverflowError`
   * when that passes 0001-01-01; this can only happen on the first, oldest day.
   */
  method GetDailyStats(stats: seq<DayStat>, days: int, today: int) returns (result: Result<seq<DayStat>, DateError>)
    ensures result.Failure? <==> days > 0 && WindowDate(today, days, 0) < MinOrdinal
    ensures result.Failure? ==> result.error == OverflowError
    ensures result.Success? ==> |result.value| == if days < 0 then 0 else days
    ensures result.Success? ==>
              forall i :: 0 <= i < |result.value| ==> result.value[i].date == WindowDate(today, days, i)
    ensures result.Success? ==>
              forall i :: 0 <= i < |result.value| ==> result.value[i] == EntryFor(stats, WindowDate(today, days, i))
  {
    var entries := [];
    var i := 0;
    while i < days
      invariant 0 <= i <= (if days < 0 then 0 else days)
      invariant |entries| == i
      invariant i > 0 ==> WindowDate(today, days, 0) >= MinOrdinal
      invariant forall k :: 0 <= k < i ==> entries[k] == EntryFor(stats, WindowDate(today, days, k))
    {
      var date := WindowDate(today, days, i);
      if date < MinOrdinal {
        return Failure(OverflowError);
      }
      var found := false;
      var j := 0;
      ghost var before := entries;
      while j < |stats|
        invariant 0 <= j <= |stats|
        invariant forall k :: 0 <= k < j ==> stats[k].date != date
        invariant !found && entries == before
      {
        if stats[j].date == date {
          entries := entries + [stats[j]];
          found := true;
          break;
        }
        j := j + 1;
      }
      if !found {
        entries := entries + [EmptyDay(date)];
      }
      i := i + 1;
    }
    return Success(entries);
  }

  // ---------------------------------------------------------------------------
  // get_study_streak

  /**
   * The loop of `get_study_streak` from the day `check` on: a date equal to
   * `check` extends the streak and moves `check` back a day, an earlier date
   * ends it, and a later date is skipped.
   */
  function StreakFrom(dates: seq<int>, check: int): (n: nat)
    ensures n <= |dates|
    ensures forall d :: check - n < d <= check ==> d in dates
  {
    if dates == [] then 0
    else if dates[0] == check then
      var n := 1 + StreakFrom(dates[1..], check - 1);
      assert forall d :: d in dates[1..] ==> d in dates;
      assert check in dates;
      n
    else if dates[0] < check then 0
    else
      var n := StreakFrom(dates[1..], check);
      assert forall d :: d in dates[1..] ==> d in dates;
      n
  }

  /** `get_study_streak`: the number of consecutive study days ending at `today`. */
  function StudyStreak(dates: seq<int>, today: int): (n: nat)
    ensures dates == [] ==> n == 0
    ensures n <= |dates|
    ensures forall d :: today - n < d <= today ==> d in dates
    ensures today !in dates ==> n == 0
  {
    if dates == [] then 0 else StreakFrom(dates, today)
  }

  /** Strictly descending, hence distinct: the order the streak query returns. */
  predicate Descending(dates: seq<int>) {
    forall i, j :: 0 <= i < j < |dates| ==> dates[i] > dates[j]
  }

  /**
   * On distinct dates sorted newest first the streak is maximal: the day just
   * before the counted run is absent, so the count stops at the first gap.
   */
  lemma {:induction false} StreakFromStopsAtGap(dates: seq<int>, check: int)
    requires Descending(dates)
    ensures check - StreakFrom(dates, check) !in dates
    decreases |dates|
  {
    if dates != [] {
      var rest := dates[1..];
      assert Descending(rest);
      var n := StreakFrom(dates, check);
      if dates[0] == check {
        StreakFromStopsAtGap(rest, check - 1);
        assert check - n == (check - 1) - StreakFrom(rest, check - 1);
        assert check - n < dates[0];
        assert dates == [dates[0]] + rest;
      } else if dates[0] < check {
        assert forall i :: 0 <= i < |dates| ==> dates[i] <= dates[0];
      } else {
        StreakFromStopsAtGap(rest, check);
        assert check - n < dates[0];
        assert dates == [dates[0]] + rest;
      }
    }
  }

  /** With sorted distinct dates the streak is exactly the run of days present back from `today`. */
  lemma StudyStreakExact(dates: seq<int>, today: int)
    requires Descending(dates)
    ensures forall d :: today - StudyStreak(dates, today) < d <= today ==> d in dates
    ensures today - StudyStreak(dates, today) !in dates
  {
    if dates != [] {
      StreakFromStopsAtGap(dates, today);
    }
  }

  /** Dates after `today` in front of the list are skipped without ending the count. */
  lemma {:induction false} FutureDatesSkipped(future: seq<int>, dates: seq<int>, today: int)
    requires forall i :: 0 <= i < |future| ==> future[i] > today
    ensures StreakFrom(future + dates, today) == StreakFrom(dates, today)
    decreases |future|
  {
    if future != [] {
      assert (future + dates)[0] == future[0];
      assert (future + dates)[1..] == future[1..] + dates;
      FutureDatesSkipped(future[1..], dates, today);
    } else {
      assert future + dates == dates;
    }
  }

  // ---------------------------------------------------------------------------
  // get_mastery_level

  datatype Level = New | Learning | Young | Mature

  /**
   * The SQL `CASE` on `repetitions`, where `None` is a NULL column. A negative
   * count falls under learning. A NULL fails every `WHEN` test and so reaches
   * the `ELSE` branch: mature.
   */
  function Classify(repetitions: Option<int>): (l: Level)
    ensures l == New <==> repetitions == Some(0)
    ensures l == Learning <==> repetitions.Some? && repetitions.value != 0 && repetitions.value <= 2
    ensures l == Young <==> repetitions.Some? && 3 <= repetitions.value <= 5
    ensures l == Mature <==> repetitions.None? || repetitions.value > 5
  {
    match repetitions
    case None => Mature
    case Some(n) =>
      if n == 0 then New
      else if n <= 2 then Learning
      else if n <= 5 then Young
      else Mature
  }

  /** The result dictionary: all four keys are always present. */
  datatype Mastery = Mastery(newCards: nat, learning: nat, young: nat, mature: nat) {
    function Get(l: Level): nat {
      match l
      case New => newCards
      case Learning => learning
      case Young => young
      case Mature => mature
    }

    function Set(l: Level, count: nat): (m: Mastery)
      ensures m.Get(l) == count
      ensures forall other :: other != l ==> m.Get(other) == Get(other)
    {
      match l
      case New => this.(newCards := count)
      case Learning => this.(learning := count)
      case Young => this.(young := count)
      case Mature => this.(mature := count)
    }

    function Total(): nat {
      newCards + learning + young + mature
    }
  }

  /** One row of the `GROUP BY level` query. */
  datatype LevelRow = LevelRow(level: Level, count: nat)

  /** The number of cards whose repetition count classifies as `l`. */
  function CountLevel(repetitions: seq<Option<int>>, l: Level): (n: nat)
    ensures n <= |repetitions|
  {
    if repetitions == [] then 0
    else (if Classify(repetitions[0]) == l then 1 else 0) + CountLevel(repetitions[1..], l)
  }

  /** The row for level `l`, present only when some card has that level. */
  function RowIf(repetitions: seq<Option<int>>, l: Level): seq<LevelRow> {
    var n := CountLevel(repetitions, l);
    if n > 0 then [LevelRow(l, n)] else []
  }

  /** The grouped query: one row per level that at least one card has. */
  function GroupByLevel(repetitions: seq<Option<int>>): (rows: seq<LevelRow>)
    ensures forall i :: 0 <= i < |rows| ==> rows[i].count == CountLevel(repetitions, rows[i].level) > 0
    ensures forall i, j :: 0 <= i < j < |rows| ==> rows[i].level != rows[j].level
  {
    var rows := RowIf(repetitions, New) + RowIf(repetitions, Learning)
                + RowIf(repetitions, Young) + RowIf(repetitions, Mature);
    assert forall i :: 0 <= i < |rows| ==> rows[i] in RowIf(repetitions, rows[i].level);
    rows
  }

  /** The position of level `l`'s row in the grouped query. */
  function RowIndex(repetitions: seq<Option<int>>, l: Level): nat {
    var a, b, c := |RowIf(repetitions, New)|, |RowIf(repetitions, Learning)|, |RowIf(repetitions, Young)|;
    match l
    case New => 0
    case Learning => a
    case Young => a + b
    case Mature => a + b + c
  }

  /** Every level some card has gets a row. */
  lemma GroupByLevelCovers(repetitions: seq<Option<int>>, l: Level)
    requires CountLevel(repetitions, l) > 0
    ensures var rows := GroupByLevel(repetitions);
            var i := RowIndex(repetitions, l);
            i < |rows| && rows[i] == LevelRow(l, CountLevel(repetitions, l))
  {
    var n, le, y, m := RowIf(repetitions, New), RowIf(repetitions, Learning),
                       RowIf(repetitions, Young), RowIf(repetitions, Mature);
    var rows := GroupByLevel(repetitions);
    assert rows == n + le + y + m;
    match l
    case New => assert rows[0] == n[0];
    case Learning => assert rows[|n|] == le[0];
    case Young => assert rows[|n| + |le|] == y[0];
    case Mature => assert rows[|n| + |le| + |y|] == m[0];
  }

  /** The loop over the rows: each row overwrites its level's zero. */
  function ApplyRows(rows: seq<LevelRow>): (m: Mastery)
    ensures forall l :: (forall i :: 0 <= i < |rows| ==> rows[i].level != l) ==> m.Get(l) == 0
    ensures forall i :: 0 <= i < |rows| ==>
              (forall j :: i < j < |rows| ==> rows[j].level != rows[i].level) ==>
              m.Get(rows[i].level) == rows[i].count
    decreases |rows|
  {
    if rows == [] then Mastery(0, 0, 0, 0)
    else
      var last := rows[|rows| - 1];
      var m := ApplyRows(rows[..|rows| - 1]).Set(last.level, last.count);
      assert forall i :: 0 <= i < |rows| - 1 ==> rows[i] == rows[..|rows| - 1][i];
      m
  }

  /**
   * `get_mastery_level` over the repetition counts of all cards: each level
   * holds the number of its cards, zero when it has none.
   */
  function GetMasteryLevel(repetitions: seq<Option<int>>): (m: Mastery)
    ensures forall l :: m.Get(l) == CountLevel(repetitions, l)
  {
    var rows := GroupByLevel(repetitions);
    assert forall l :: CountLevel(repetitions, l) > 0 ==>
                         RowIndex(repetitions, l) < |rows|
                         && rows[RowIndex(repetitions, l)] == LevelRow(l, CountLevel(repetitions, l)) by {
      forall l | CountLevel(repetitions, l) > 0
        ensures RowIndex(repetitions, l) < |rows|
                && rows[RowIndex(repetitions, l)] == LevelRow(l, CountLevel(repetitions, l)) {
        GroupByLevelCovers(repetitions, l);
      }
    }
    ApplyRows(rows)
  }

  /** Every card falls under exactly one level. */
  lemma {:induction false} CountLevelsTotal(repetitions: seq<Option<int>>)
    ensures CountLevel(repetitions, New) + CountLevel(repetitions, Learning)
            + CountLevel(repetitions, Young) + CountLevel(repetitions, Mature) == |repetitions|
  {
    if repetitions != [] {
      CountLevelsTotal(repetitions[1..]);
    }
  }

  /** The four counts add up to the number of cards. */
  lemma MasteryTotal(repetitions: seq<Option<int>>)
    ensures GetMasteryLevel(repetitions).Total() == |repetitions|
  {
    CountLevelsTotal(repetitions);
  }

  /** With no cards, every level is present with count zero. */
  lemma MasteryOfNoCards()
    ensures GetMasteryLevel([]) == Mastery(0, 0, 0, 0)
  {
  }
}

/**
 * The SM-2 variant of `SpacedRepetition.get_next_review`
 * (core/spaced_repetition.py).
 *
 * The easiness factor is an exact `real`: every constant of the update is a
 * whole number of hundredths, so no floating-point reasoning is needed.
 * Quality is an unbounded, unclamped integer, and so are the repetition
 * counter and the interval, exactly as the Python code accepts them.
 * The clock is replaced by the day number `today` given by the caller, a
 * Python date ordinal.
 */
module SpacedRepetition {
  import opened Wrappers
  import opened Rounding
  import opened Calendar

  const DefaultEasiness: real := 2.5
  const MinEasiness: real := 1.3

  /** The `card_progress` dictionary: each key may be missing. */
  datatype Progress = Progress(
    easiness: Option<real>,
    repetitions: Option<int>,
    interval: Option<int>)

  /** The scheduling fields after defaults are filled in. */
  datatype State = State(easiness: real, repetitions: int, interval: int)

  /** The dictionary returned by `get_next_review`; the due date is a day number. */
  datatype Review = Review(repetitions: int, interval: int, easiness: real, nextReview: int)

  /** The progress dictionary with nothing recorded yet. */
  const NoProgress := Progress(None, None, None)

  /** The three `dict.get` calls with their defaults. */
  function Load(p: Progress): (s: State)
    ensures p.easiness == None ==> s.easiness == DefaultEasiness
    ensures p.repetitions == None ==> s.repetitions == 0
    ensures p.interval == None ==> s.interval == 0
    ensures p.easiness.Some? ==> s.easiness == p.easiness.value
    ensures p.repetitions.Some? ==> s.repetitions == p.repetitions.value
    ensures p.interval.Some? ==> s.interval == p.interval.value
  {
    State(p.easiness.GetOr(DefaultEasiness), p.repetitions.GetOr(0), p.interval.GetOr(0))
  }

  /** A review with quality below 3 is a lapse; 3 itself is a success. */
  predicate IsLapse(quality: int) {
    quality < 3
  }

  /**
   * The change of the easiness factor before clamping. With `k = 5 - quality`
   * it is `10 - 8k - 2k^2` hundredths.
   */
  function EaseDelta(quality: int): (d: real)
    ensures quality == 5 ==> d == 0.1
    ensures quality == 4 ==> d == 0.0
    ensures quality == 3 ==> d == -0.14
  {
    var k := (5 - quality) as real;
    0.1 - k * (0.08 + k * 0.02)
  }

  /** The pure state transition for one review. */
  function Step(s: State, quality: int): (t: State)
    ensures IsLapse(quality) ==>
              t.repetitions == 0 && t.interval == 1 && t.easiness == s.easiness
    ensures !IsLapse(quality) ==> t.repetitions == s.repetitions + 1
    ensures !IsLapse(quality) ==> t.easiness >= MinEasiness
    ensures !IsLapse(quality) ==> t.easiness >= s.easiness + EaseDelta(quality)
    ensures !IsLapse(quality) && s.easiness + EaseDelta(quality) > MinEasiness ==>
              t.easiness == s.easiness + EaseDelta(quality)
    ensures !IsLapse(quality) && s.easiness + EaseDelta(quality) <= MinEasiness ==>
              t.easiness == MinEasiness
    ensures !IsLapse(quality) && s.repetitions == 0 ==> t.interval == 1
    ensures !IsLapse(quality) && s.repetitions == 1 ==> t.interval == 3
    ensures !IsLapse(quality) && s.repetitions != 0 && s.repetitions != 1 ==>
              IsRoundHalfEven(s.interval as real * s.easiness, t.interval)
  {
    if IsLapse(quality) then
      State(s.easiness, 0, 1)
    else
      var repetitions := s.repetitions + 1;
      var interval :=
        if repetitions == 1 then 1
        else if repetitions == 2 then 3
        else RoundHalfEven(s.interval as real * s.easiness);
      var easiness := Max(MinEasiness, s.easiness + EaseDelta(quality));
      State(easiness, repetitions, interval)
  }

  /**
   * `get_next_review`: the new scheduling fields and the due day
   * `today + interval`, or `OverflowError` when that day is not a
   * representable date.
   */
  function GetNextReview(p: Progress, quality: int, today: int): (r: Result<Review, DateError>)
    ensures r.Success? <==> InDateRange(today + Step(Load(p), quality).interval)
    ensures r.Failure? ==> r.error == OverflowError
    ensures r.Success? ==>
              var s := Load(p);
              && r.value.easiness == Step(s, quality).easiness
              && r.value.repetitions == Step(s, quality).repetitions
              && r.value.interval == Step(s, quality).interval
              && r.value.nextReview == today + r.value.interval
  {
    var t := Step(Load(p), quality);
    if InDateRange(today + t.interval) then
      Success(Review(t.repetitions, t.interval, t.easiness, today + t.interval))
    else
      Failure(OverflowError)
  }

  /** The returned dictionary, read back as the next review's input. */
  function AsProgress(r: Review): (p: Progress)
    ensures Load(p) == State(r.easiness, r.repetitions, r.interval)
  {
    Progress(Some(r.easiness), Some(r.repetitions), Some(r.interval))
  }

  function Max(a: real, b: real): real {
    if a < b then b else a
  }

  // ---------------------------------------------------------------------------
  // Invariants of a scheduling state

  /**
   * A well-formed state: easiness at least the floor, counters non-negative,
   * and a card that has graduated at least once is due at least a day later.
   */
  ghost predicate Valid(s: State) {
    && s.easiness >= MinEasiness
    && s.repetitions >= 0
    && s.interval >= 0
    && (s.repetitions > 0 ==> s.interval >= 1)
  }

  /** The defaults of a card that has never been reviewed form a valid state. */
  lemma DefaultsAreValid()
    ensures Load(NoProgress) == State(2.5, 0, 0)
    ensures Valid(Load(NoProgress))
  {
  }

  /** Every review takes a valid state to a valid state. */
  lemma StepPreservesValid(s: State, quality: int)
    requires Valid(s)
    ensures Valid(Step(s, quality))
    ensures Step(s, quality).interval >= 1
  {
    if !IsLapse(quality) && s.repetitions >= 2 {
      MatureIntervalAtLeast(s.interval, s.easiness);
    }
  }

  /**
   * From the third consecutive success on, the interval never shrinks, and it
   * strictly grows once it is at least 2 days.
   */
  lemma MatureIntervalGrows(s: State, quality: int)
    requires Valid(s)
    requires !IsLapse(quality) && s.repetitions >= 2
    ensures Step(s, quality).interval >= s.interval
    ensures s.interval >= 2 ==> Step(s, quality).interval > s.interval
  {
    MatureIntervalAtLeast(s.interval, s.easiness);
  }

  lemma MatureIntervalAtLeast(interval: int, easiness: real)
    requires interval >= 1 && easiness >= MinEasiness
    ensures RoundHalfEven(interval as real * easiness) >= interval
    ensures interval >= 2 ==> RoundHalfEven(interval as real * easiness) >= interval + 1
  {
    var x := interval as real * easiness;
    assert x - interval as real * MinEasiness == interval as real * (easiness - MinEasiness);
    MulNonNegative(interval as real, easiness - MinEasiness);
    RoundHalfEvenOfInt(interval);
    RoundHalfEvenMonotone(interval as real, x);
    if interval >= 2 {
      assert x >= interval as real + 0.6;
      RoundHalfEvenOfInt(interval + 1);
      RoundHalfEvenMonotone((interval + 1) as real, x + 0.4);
      assert RoundHalfEven(x) >= interval + 1;
    }
  }

  lemma MulNonNegative(a: real, b: real)
    requires a >= 0.0 && b >= 0.0
    ensures a * b >= 0.0
  {
  }

  /**
   * The third success multiplies by the easiness factor from BEFORE this
   * review's update: a different prior factor with the same result after the
   * update can give a different interval.
   */
  lemma IntervalUsesPriorEasiness()
    ensures Step(State(2.5, 2, 10), 5).easiness == Step(State(2.6, 2, 10), 4).easiness
    ensures Step(State(2.5, 2, 10), 5).interval == 25
    ensures Step(State(2.6, 2, 10), 4).interval == 26
  {
    assert RoundHalfEven(25.0) == 25 by { RoundHalfEvenOfInt(25); }
    assert RoundHalfEven(26.0) == 26 by { RoundHalfEvenOfInt(26); }
  }

  /** Three reviews of quality 5 from the defaults give intervals 1, 3, 8. */
  lemma GraduationFromDefaults(today: int)
    requires InDateRange(today) && InDateRange(today + 8)
    ensures var r1 := GetNextReview(NoProgress, 5, today);
            && r1 == Success(Review(1, 1, 2.6, today + 1))
            && var r2 := GetNextReview(AsProgress(r1.value), 5, today);
            && r2 == Success(Review(2, 3, 2.7, today + 3))
            && var r3 := GetNextReview(AsProgress(r2.value), 5, today);
            && r3 == Success(Review(3, 8, 2.8, today + 8))
  {
    assert RoundHalfEven(3.0 * 2.7) == 8 by {
      RoundHalfEvenUnique(8.1, 8);
    }
  }

  /** The states of a new card after each of thirteen quality-5 reviews. */
  lemma ThirteenPerfectReviews()
    ensures var s0 := Load(NoProgress);
            var s1 := Step(s0, 5);
            var s2 := Step(s1, 5);
            var s3 := Step(s2, 5);
            var s4 := Step(s3, 5);
            var s5 := Step(s4, 5);
            var s6 := Step(s5, 5);
            var s7 := Step(s6, 5);
            var s8 := Step(s7, 5);
            var s9 := Step(s8, 5);
            var s10 := Step(s9, 5);
            var s11 := Step(s10, 5);
            var s12 := Step(s11, 5);
            var s13 := Step(s12, 5);
            && s3 == State(2.8, 3, 8)
            && s6 == State(3.1, 6, 192)
            && s9 == State(3.4, 9, 6283)
            && s13 == State(3.8, 13, 995896)
  {
    assert Step(State(2.7, 2, 3), 5) == State(2.8, 3, 8) by { RoundHalfEvenUnique(8.1, 8); }
    assert Step(State(2.8, 3, 8), 5) == State(2.9, 4, 22) by { RoundHalfEvenUnique(22.4, 22); }
    assert Step(State(2.9, 4, 22), 5) == State(3.0, 5, 64) by { RoundHalfEvenUnique(63.8, 64); }
    assert Step(State(3.0, 5, 64), 5) == State(3.1, 6, 192) by { RoundHalfEvenUnique(192.0, 192); }
    assert Step(State(3.1, 6, 192), 5) == State(3.2, 7, 595) by { RoundHalfEvenUnique(595.2, 595); }
    assert Step(State(3.2, 7, 595), 5) == State(3.3, 8, 1904) by { RoundHalfEvenUnique(1904.0, 1904); }
    assert Step(State(3.3, 8, 1904), 5) == State(3.4, 9, 6283) by { RoundHalfEvenUnique(6283.2, 6283); }
    assert Step(State(3.4, 9, 6283), 5) == State(3.5, 10, 21362) by { RoundHalfEvenUnique(21362.2, 21362); }
    assert Step(State(3.5, 10, 21362), 5) == State(3.6, 11, 74767) by { RoundHalfEvenUnique(74767.0, 74767); }
    assert Step(State(3.6, 11, 74767), 5) == State(3.7, 12, 269161) by { RoundHalfEvenUnique(269161.2, 269161); }
    assert Step(State(3.7, 12, 269161), 5) == State(3.8, 13, 995896) by { RoundHalfEvenUnique(995895.7, 995896); }
  }

  /**
   * The fourteenth quality-5 review of a new card (easiness 3.8 and interval
   * 995896 after thirteen) is due 3784405 days later, past `date.max` from any
   * representable day, so Python raises `OverflowError`.
   */
  lemma OverflowPastDateMax(today: int)
    requires InDateRange(today)
    ensures Step(State(3.8, 13, 995896), 5) == State(3.9, 14, 3784405)
    ensures GetNextReview(Progress(Some(3.8), Some(13), Some(995896)), 5, today) == Failure(OverflowError)
  {
    assert RoundHalfEven(995896.0 * 3.8) == 3784405 by {
      RoundHalfEvenUnique(3784404.8, 3784405);
    }
  }

  /** Quality is not clamped: 6 changes the easiness factor by more than 5 does. */
  lemma QualityNotClamped()
    ensures EaseDelta(6) == 0.16
    ensures GetNextReview(NoProgress, 6, 1) != GetNextReview(NoProgress, 5, 1)
  {
  }

  /**
   * Below 3 the value of the quality no longer matters: every such review is a
   * lapse, so quality -1 acts exactly like 0 and never applies its easiness change.
   */
  lemma LapseIgnoresQuality(s: State, quality: int)
    requires quality < 3
    ensures Step(s, quality) == Step(s, 0)
    ensures Step(s, quality).easiness == s.easiness
  {
  }

  /**
   * Up to quality 7 a better answer never lowers the easiness change; above
   * that the quadratic term takes over.
   */
  lemma EaseDeltaMonotone(q: int, q': int)
    requires q <= q' <= 7
    ensures EaseDelta(q) <= EaseDelta(q')
  {
    var k, k' := (5 - q) as real, (5 - q') as real;
    assert k' <= k && k' >= -2.0;
    assert EaseDelta(q') - EaseDelta(q) == (k - k') * (0.08 + 0.02 * (k + k'));
    assert 0.08 + 0.02 * (k + k') >= 0.0;
  }

  // ---------------------------------------------------------------------------
  // A run of reviews

  /** The state after the reviews `qs`, oldest first. */
  function Replay(s: State, qs: seq<int>): State
    decreases |qs|
  {
    if qs == [] then s else Replay(Step(s, qs[0]), qs[1..])
  }

  /** The number of successes at the end of `qs` since its last lapse. */
  function TrailingSuccesses(qs: seq<int>): (n: nat)
    ensures n <= |qs|
  {
    if qs == [] then 0
    else if IsLapse(qs[|qs| - 1]) then 0
    else 1 + TrailingSuccesses(qs[..|qs| - 1])
  }

  predicate HasLapse(qs: seq<int>) {
    exists i :: 0 <= i < |qs| && IsLapse(qs[i])
  }

  lemma ReplaySnoc(s: State, qs: seq<int>, q: int)
    ensures Replay(s, qs + [q]) == Step(Replay(s, qs), q)
    decreases |qs|
  {
    if qs != [] {
      assert (qs + [q])[1..] == qs[1..] + [q];
      ReplaySnoc(Step(s, qs[0]), qs[1..], q);
    }
  }

  /**
   * The repetition counter counts the consecutive successes since the last
   * lapse, on top of the stored counter when there has been no lapse.
   */
  lemma {:induction false} ReplayRepetitions(s: State, qs: seq<int>)
    ensures HasLapse(qs) ==> Replay(s, qs).repetitions == TrailingSuccesses(qs)
    ensures !HasLapse(qs) ==> Replay(s, qs).repetitions == s.repetitions + |qs|
    decreases |qs|
  {
    if qs != [] {
      var init, q := qs[..|qs| - 1], qs[|qs| - 1];
      assert qs == init + [q];
      ReplaySnoc(s, init, q);
      ReplayRepetitions(s, init);
      if !IsLapse(q) {
        assert HasLapse(qs) ==> HasLapse(init) by {
          if HasLapse(qs) {
            var i :| 0 <= i < |qs| && IsLapse(qs[i]);
            assert i < |init| && init[i] == qs[i];
          }
        }
        assert HasLapse(init) ==> HasLapse(qs) by {
          if HasLapse(init) {
            var i :| 0 <= i < |init| && IsLapse(init[i]);
            assert qs[i] == init[i];
          }
        }
      } else {
        assert IsLapse(qs[|qs| - 1]);
      }
    }
  }

  /** A run of lapses never moves the easiness factor. */
  lemma {:induction false} LapsesKeepEasiness(s: State, qs: seq<int>)
    requires forall i :: 0 <= i < |qs| ==> IsLapse(qs[i])
    ensures Replay(s, qs).easiness == s.easiness
    ensures qs != [] ==> Replay(s, qs).repetitions == 0 && Replay(s, qs).interval == 1
    decreases |qs|
  {
    if qs != [] {
      LapsesKeepEasiness(Step(s, qs[0]), qs[1..]);
    }
  }

  /** Validity holds along any run of reviews. */
  lemma {:induction false} ReplayPreservesValid(s: State, qs: seq<int>)
    requires Valid(s)
    ensures Valid(Replay(s, qs))
    decreases |qs|
  {
    if qs != [] {
      StepPreservesValid(s, qs[0]);
      ReplayPreservesValid(Step(s, qs[0]), qs[1..]);
    }
  }
}

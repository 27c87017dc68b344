# StudyCards-Pro scheduling core in Dafny

This project models the scheduling core of StudyCards-Pro, a flashcard study
tool, and proves properties of the model:

- `SpacedRepetition` (`scheduler.dfy`): `SpacedRepetition.get_next_review`, an
  SM-2 variant. It takes a card's progress (easiness factor, repetition
  counter, interval) and a quality rating, and yields the next progress and
  the due day. `Rounding` (`rounding.dfy`) defines Python's `round` on an
  exact real number: nearest integer, ties to even.
- `Tags` and `Models` (`tags.dfy`, `models.dfy`): `Card.get_tags_list`, and the
  defaults that `Card.from_dict` and `Deck.from_dict` fill in for missing
  keys.
- `Statistics` (`statistics.dfy`): the pure post-query logic of
  `get_daily_stats` (filling missing days), `get_study_streak` (consecutive
  study days ending today) and `get_mastery_level` (repetition count to
  mastery level, every level present and zero by default).
- `Wrappers` (`wrappers.dfy`): `Option` and `Result`.

Modelling choices:

- The easiness factor is a Dafny `real`. Every constant in its update is a
  whole number of hundredths, so the arithmetic is exact. With
  `k = 5 - quality` the change is `10 - 8k - 2k^2` hundredths.
- Quality, repetitions and interval are unbounded `int`s, as Python's are. The
  scheduling arithmetic does not clamp them, and neither does the model.
- Dates are Python date ordinals: day 1 is 0001-01-01 and day 3652059 is
  9999-12-31 (`Calendar`, `calendar.dfy`). Adding or subtracting a
  `timedelta` that leaves this range raises `OverflowError`. The model returns
  that error as a `Failure`, both for a due day past 9999-12-31 and for a
  statistics window that starts before 0001-01-01. The current day is a
  `today` parameter in place of `datetime.now()`.
- Each database query is replaced by the list it would return: the per-day
  review rows, the distinct review dates newest first, and the repetition
  counts of all cards (each possibly NULL).
- A `from_dict` dictionary is a `map<string, Value>` in which any key may be
  missing. `Value` is a small dynamic type, because a Python dataclass stores
  whatever it is given. A missing required key yields `KeyError`.
- The `card_progress` dictionary of the scheduler has one `Option` per key.

Scheduling behaviour worth knowing, as core/spaced_repetition.py has it:

- The second consecutive success gives an interval of 3 days. Textbook SM-2
  uses 6 days here.
- From the third success on, the interval is `round(interval * ef)`. The
  easiness factor `ef` is the one from *before* this review, because the
  update comes after the multiplication.
- Quality is used as given, with no clamping to 0..5. Quality 6 changes the
  easiness factor by +0.16, not +0.10 (`SpacedRepetition.QualityNotClamped`).
  A quality below 0 is a lapse like any quality below 3 and acts exactly like
  0 (`SpacedRepetition.LapseIgnoresQuality`).
- A stored negative interval or repetition count goes through the same
  arithmetic as any other value.
- The easiness factor changes only on the success path. A lapse keeps it.
- Thirteen quality-5 reviews of a new card reach an interval of 995896 days. A
  fourteenth gives 3784405 days, and the due day then passes 9999-12-31, so
  the date addition raises `OverflowError`
  (`SpacedRepetition.OverflowPastDateMax`).

## Model

| member | source | states |
|---|---|---|
| SpacedRepetition.Load | core/spaced_repetition.py:15-17 | a missing easiness factor, repetition count or interval reads as 2.5, 0 or 0; a present value is used unchanged |
| SpacedRepetition.EaseDelta | core/spaced_repetition.py:30 | the unclamped easiness change is +0.10 at quality 5, 0 at quality 4 and -0.14 at quality 3 |
| SpacedRepetition.Step | core/spaced_repetition.py:18-30 | a lapse (quality below 3) gives repetitions 0 and interval 1 and keeps the easiness factor; quality 3 or more adds exactly one repetition; the interval is 1 after a reset counter, 3 after one success, and otherwise the nearest integer (ties to even) to the old interval times the OLD easiness factor; after a success the easiness factor is the old factor plus the change when that sum is above 1.3, and exactly 1.3 otherwise |
| SpacedRepetition.GetNextReview | core/spaced_repetition.py:13-37 | it raises `OverflowError` exactly when today plus the new interval falls outside 0001-01-01..9999-12-31; otherwise the returned fields are the transition applied to the progress with defaults filled in, and the due day is today plus the new interval |
| SpacedRepetition.DefaultsAreValid | core/spaced_repetition.py:9-17 | an empty progress record reads as easiness 2.5, 0 repetitions, interval 0, which satisfies the state invariant |
| SpacedRepetition.StepPreservesValid | core/spaced_repetition.py:18-30 | from a state with easiness at least 1.3, non-negative counters and interval at least 1 once graduated, every review yields such a state with interval at least 1 |
| SpacedRepetition.MatureIntervalGrows | core/spaced_repetition.py:27-28 | from the third consecutive success on, the interval never shrinks, and it strictly grows once it is at least 2 days |
| SpacedRepetition.IntervalUsesPriorEasiness | core/spaced_repetition.py:27-30 | two states that end with the same updated easiness factor get different intervals (25 and 26 from interval 10), because the product uses the factor before the update |
| SpacedRepetition.GraduationFromDefaults | core/spaced_repetition.py:15-31 | three quality-5 reviews of a new card give intervals 1, 3, 8, easiness 2.6, 2.7, 2.8, and due days today+1, today+3, today+8 |
| SpacedRepetition.ThirteenPerfectReviews | core/spaced_repetition.py:15-30 | repeated quality-5 reviews of a new card reach interval 8 after 3 reviews, 192 after 6, 6283 after 9 and 995896 after 13, with easiness 2.8, 3.1, 3.4 and 3.8 |
| SpacedRepetition.OverflowPastDateMax | core/spaced_repetition.py:28-31 | a fourteenth quality-5 review gives interval 3784405, and for every valid today the due-date addition raises `OverflowError` |
| SpacedRepetition.QualityNotClamped | core/spaced_repetition.py:18-30 | quality 6 takes the success path and changes the easiness by +0.16, not +0.10, so 6 does not act like 5 |
| SpacedRepetition.LapseIgnoresQuality | core/spaced_repetition.py:18-20 | any quality below 3, -1 included, is a lapse that acts exactly like quality 0 and keeps the easiness factor |
| SpacedRepetition.EaseDeltaMonotone | core/spaced_repetition.py:30 | for qualities up to 7 a higher quality never gives a smaller easiness change |
| SpacedRepetition.ReplayRepetitions | core/spaced_repetition.py:18-22 | after a run of reviews the repetition count is the number of successes since the last lapse, or the stored count plus the run length when the run has no lapse |
| SpacedRepetition.LapsesKeepEasiness | core/spaced_repetition.py:18-20 | any run of lapses leaves the easiness factor unchanged and ends with repetitions 0 and interval 1 |
| SpacedRepetition.ReplayPreservesValid | core/spaced_repetition.py:18-30 | the state invariant holds after any run of reviews |
| Rounding.RoundHalfEven | core/spaced_repetition.py:28 | the result is within 0.5 of its argument and, at exactly 0.5, is even |
| Rounding.RoundHalfEvenNearest | core/spaced_repetition.py:28 | no integer is strictly closer to the argument than the rounded value |
| Rounding.RoundHalfEvenUnique | core/spaced_repetition.py:28 | any integer within 0.5 that is even on a tie is the rounded value |
| Rounding.RoundHalfEvenMonotone | core/spaced_repetition.py:28 | rounding preserves the order of its arguments |
| Tags.Strip | core/models.py:91 | the result is a contiguous slice of the segment with only whitespace before and after it; it has no whitespace at either end, and it is empty exactly when the segment is all whitespace |
| Tags.StripUnique | core/models.py:91 | any non-empty slice with only whitespace around it and no whitespace at its ends is the stripped segment |
| Tags.Split | core/models.py:91 | splitting on commas gives one more segment than there are commas, none of them containing a comma |
| Tags.JoinSplit | core/models.py:91 | re-joining the segments with commas gives back the original string |
| Tags.SplitJoin | core/models.py:91 | splitting comma-free parts joined with commas gives back the parts |
| Tags.TagsList | core/models.py:91 | every tag is non-empty and has no leading or trailing whitespace, and there are at most commas-plus-one tags |
| Tags.TagsListComma | core/models.py:91 | the tags of `a,b` are the tags of `a` followed by the tags of `b`, and a comma-free segment contributes its stripped form exactly when that is non-empty |
| Tags.TagsListOfJoin | core/models.py:91 | the tags of comma-joined parts are the non-empty stripped parts in their original order |
| Tags.TagsListEmpty | core/models.py:91 | there are no tags if and only if the string consists only of commas and whitespace |
| Tags.DefaultTagsEmpty | core/models.py:62 | the default empty tag string has no tags |
| Models.OptionalTimestamp | core/models.py:50 | a timestamp is kept exactly when its key is present with a truthy value |
| Models.DeckFromDict | core/models.py:39-51 | succeeds exactly when `id`, `name` and `category_id` are present, else raises `KeyError` on the first missing one; `description` defaults to the empty string, `card_count` and `due_count` to 0, `category_name` and `category_color` to none; present keys are copied unchanged; `created_at` is kept when present and truthy, and none otherwise |
| Models.CardFromDict | core/models.py:71-87 | succeeds exactly when `id`, `deck_id`, `question` and `answer` are present, else raises `KeyError` on the first missing one; absent scheduling keys give ease factor 2.5, interval 0, repetitions 0 and no next review, absent `example`/`tags` give the empty string and `difficulty` 0; present keys are copied unchanged; `created_at` and `updated_at` are each kept when present and truthy, and none otherwise |
| Models.GetTagsList | core/models.py:89-91 | a string `tags` yields non-empty stripped tags, at most commas plus one; any other value raises `AttributeError` |
| Models.CardWithoutTagsHasNoTags | core/models.py:79 | a card built without a `tags` key has no tags |
| Models.FreshCardDefaults | core/models.py:81-84 | a row with only the required keys gets ease factor 2.5, interval 0, repetitions 0 and no next review |
| Statistics.EntryFor | core/statistics.py:31-41 | the entry for a date carries that date; it is the first row with that date when there is one, and the zero entry otherwise |
| Statistics.GetDailyStats | core/statistics.py:14-43 | it raises `OverflowError` exactly when the window is non-empty and its oldest day falls before 0001-01-01; otherwise the result has exactly `days` entries (none for a negative count); entry `i` is for day `today - (days - i - 1)`, so the days ascend consecutively to today; each entry is the first input row for its day, or count 0 and average 0 |
| Statistics.StreakFrom | core/statistics.py:104-113 | the count never exceeds the number of dates, and every day of the counted run back from the start day is among the dates |
| Statistics.StudyStreak | core/statistics.py:85-115 | an empty list gives 0; the streak is at most the number of dates; every day of the run ending today was studied; with today absent the streak is 0 |
| Statistics.StreakFromStopsAtGap | core/statistics.py:107-113 | on strictly descending dates the day just before the counted run is absent |
| Statistics.StudyStreakExact | core/statistics.py:101-115 | on strictly descending dates the streak is exactly the number of consecutive studied days ending today |
| Statistics.FutureDatesSkipped | core/statistics.py:107-113 | dates later than today at the front of the list are skipped without ending the count |
| Statistics.Classify | core/statistics.py:137-142 | repetitions 0 is new, other values up to 2 (negatives included) learning, 3 to 5 young, above 5 or NULL mature |
| Statistics.GroupByLevel | core/statistics.py:136-145 | each grouped row's count is the number of cards at its level and is positive, and no level appears twice |
| Statistics.GroupByLevelCovers | core/statistics.py:136-145 | every level some card has gets a row with its count |
| Statistics.ApplyRows | core/statistics.py:148-150 | a level no row mentions keeps its zero; a level's last row sets its count |
| Statistics.GetMasteryLevel | core/statistics.py:127-152 | every level reports the number of cards at that level, zero when there are none |
| Statistics.CountLevelsTotal | core/statistics.py:137-142 | every card falls under exactly one level, so the four counts add up to the number of cards |
| Statistics.MasteryTotal | core/statistics.py:137-150 | the four reported counts add up to the number of cards |
| Statistics.MasteryOfNoCards | core/statistics.py:148 | with no cards all four levels are present with count 0 |

## Left out

- core/database.py and every SQL query in core/statistics.py: they are SQLite
  I/O. The modelled methods take the query results as input lists.
  `get_category_distribution`, `get_success_rate`, `get_total_study_time`,
  `get_weekly_heatmap` and `get_difficult_cards` each run a single query and
  return its rows as dicts or tuples (core/statistics.py:62, 173, 212);
  `get_success_rate` and `get_total_study_time` also round a float
  (core/statistics.py:83, 194). None has logic beyond the query, so they are
  not modelled.
- `get_cards_due_today` and due-card selection: `get_due_cards` and
  `get_review_stats` are not defined in core/database.py, so there is no
  due-set logic to model.
- main.py, gui/ and core/__init__.py: Qt plumbing and re-exports.
- `Category.from_dict`: it has no defaults, only required keys and a timestamp
  parse.
- `datetime.now()`, `strftime`/`strptime`, `str(date)` and
  `datetime.fromisoformat`: dates are day numbers and `today` is a parameter.
  A timestamp field keeps the raw value it would be parsed from, and a parse
  failure is not modelled.
- IEEE-754 floating point: the easiness factor is an exact real. Float drift in
  `ef + delta` and in `interval * ef` (it can decide a rounding tie) is out of
  scope.
- The `LIMIT 100` of the streak query: the model takes whatever list it is
  given, so it does not cap the streak at 100.
- Statistics.GetDailyStats: the zero entry has average quality `0.0`, a real,
  where Python stores the integer `0`. The review rows carry only date, count
  and average quality, and dates are compared as day numbers rather than as
  `'%Y-%m-%d'` strings. The source reads the clock afresh for every entry
  (`datetime.now()` inside the loop, core/statistics.py:29), while the model
  uses one `today` for the whole window. So the guarantee of consecutive days
  ending today holds only for a call that does not cross midnight: across
  midnight Python can skip a day and end the window on the new day.
- Statistics.StudyStreakExact: exactness is proved only for strictly
  descending dates, the order of `SELECT DISTINCT … ORDER BY date DESC`. For
  other orders only the general bounds of `Statistics.StudyStreak` are stated.
- SpacedRepetition.Load: a progress key that is present with value `None` (a
  NULL `card_progress` column) is not represented; the model has only absent
  or integer/real values. In Python a `None` repetition count raises
  `TypeError` on every success (`repetitions += 1`, core/spaced_repetition.py:22), and so does a
  `None` easiness factor (the update at line 30). A `None` interval raises only
  from the third consecutive success on (the product at line 28). A lapse
  overwrites the interval and returns a `None` easiness factor unchanged, and
  the first and second successes overwrite a `None` interval with 1 or 3.
- Statistics.StudyStreak: stepping `check_date` back past 0001-01-01 raises
  `OverflowError` in Python. That needs a streak reaching back to year 1, and
  the model does not represent it.
- Models.GetTagsList: only the exception type of calling `split` on a non-string
  is modelled, not its message.

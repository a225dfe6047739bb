/**
 Dates for a core that prints none. Instants are nanoseconds of local time under
 one fixed offset; a line shows only the time of day.
 */
module PremiumClock {
  import opened Wrappers

  const DAY := 24 * 3600 * 1_000_000_000
  const HALF_DAY := 12 * 3600 * 1_000_000_000
  const MILLISECOND := 1_000_000

  /** The dates the calendar can express. */
  datatype Calendar = Calendar(first: int, last: int)

  /** The date and time inferred for the previous line. */
  datatype Reading = Reading(date: int, time: int)

  function DateOf(instant: int): (r: int) {
    instant / DAY
  }

  function TimeOf(instant: int): (time: int)
    ensures 0 <= time < DAY && instant == DateOf(instant) * DAY + time
  {
    instant % DAY
  }

  function UnixMs(date: int, time: int, offset: int): (r: int) {
    (date * DAY + time - offset) / MILLISECOND
  }

  function InferDate(c: Calendar, clock: Option<Reading>, time: int, observed: int): (r: Option<int>) {
    if clock.Some? then
      if clock.value.time - time > HALF_DAY then
        if clock.value.date == c.last then None else Some(clock.value.date + 1)
      else Some(clock.value.date)
    else if time - TimeOf(observed) > HALF_DAY then
      if DateOf(observed) == c.first then None else Some(DateOf(observed) - 1)
    else Some(DateOf(observed))
  }

  function Advance(c: Calendar, clock: Option<Reading>, time: int, observed: int): (r: Option<Reading>) {
    var date := InferDate(c, clock, time, observed);
    if date.None? then clock else Some(Reading(date.value, time))
  }

  class PremiumClock {
    const calendar: Calendar
    var clock: Option<Reading>

    constructor (calendar: Calendar)
      ensures this.calendar == calendar && clock == None
    {
      this.calendar, clock := calendar, None;
    }

    method UnixMilliseconds(time: int, observed: int, offset: int) returns (ms: Option<int>)
      modifies this
      ensures clock == Advance(calendar, old(clock), time, observed)
      ensures var date := InferDate(calendar, old(clock), time, observed);
        ms == if date.None? then None else Some(UnixMs(date.value, time, offset))
    {
      var date: int;
      if clock.Some? {
        date := clock.value.date;
        if clock.value.time - time > HALF_DAY {
          if date == calendar.last {
            return None;
          }
          date := date + 1;
        }
      } else {
        date := DateOf(observed);
        if time - TimeOf(observed) > HALF_DAY {
          if date == calendar.first {
            return None;
          }
          date := date - 1;
        }
      }
      clock := Some(Reading(date, time));
      ms := Some(UnixMs(date, time, offset));
    }
  }

  // ------------------------------------------------------------------------- runs

  /** A printed line: the instant it was printed at, and the instant it was observed at. */
  datatype Line = Line(instant: int, observed: int)

  predicate Expressible(c: Calendar, lines: seq<Line>) {
    forall k :: 0 <= k < |lines| ==>
      c.first <= DateOf(lines[k].instant) <= c.last && c.first <= DateOf(lines[k].observed) <= c.last
  }

  /** The date inferred for each line, from the clock's state on. */
  function Dates(c: Calendar, clock: Option<Reading>, lines: seq<Line>): (dates: seq<Option<int>>)
    ensures |dates| == |lines|
    decreases |lines|
  {
    if lines == [] then []
    else
      var time := TimeOf(lines[0].instant);
      [InferDate(c, clock, time, lines[0].observed)]
        + Dates(c, Advance(c, clock, time, lines[0].observed), lines[1..])
  }

  predicate AllTrue(dates: seq<Option<int>>, lines: seq<Line>)
    requires |dates| == |lines|
  {
    forall k :: 0 <= k < |lines| ==> dates[k] == Some(DateOf(lines[k].instant))
  }

  /** Printed the day it was observed, at most half a day later, or the day before, less than half a day earlier. */
  predicate StartsNear(line: Line) {
    || (DateOf(line.instant) == DateOf(line.observed) && line.instant - line.observed <= HALF_DAY)
    || (DateOf(line.instant) == DateOf(line.observed) - 1 && line.observed - line.instant < HALF_DAY)
  }

  /** On the same day and at most half a day back, or on the next day and less than half a day ahead. */
  predicate StepsNear(previous: int, next: int) {
    || (DateOf(next) == DateOf(previous) && previous - next <= HALF_DAY)
    || (DateOf(next) == DateOf(previous) + 1 && next - previous < HALF_DAY)
  }

  predicate StepsNearFrom(previous: int, lines: seq<Line>)
    decreases |lines|
  {
    lines == [] || (StepsNear(previous, lines[0].instant) && StepsNearFrom(lines[0].instant, lines[1..]))
  }

  lemma StepIsTrue(c: Calendar, previous: int, line: Line)
    requires Expressible(c, [line])
    ensures var clock := Some(Reading(DateOf(previous), TimeOf(previous)));
      InferDate(c, clock, TimeOf(line.instant), line.observed) == Some(DateOf(line.instant))
      <==> StepsNear(previous, line.instant)
  {
    assert [line][0] == line;
    SpanAcross(previous, line.instant);
  }

  lemma FirstIsTrue(c: Calendar, line: Line)
    requires Expressible(c, [line])
    ensures InferDate(c, None, TimeOf(line.instant), line.observed) == Some(DateOf(line.instant)) <==> StartsNear(line)
  {
    assert [line][0] == line;
    SpanAcross(line.instant, line.observed);
  }

  lemma SpanAcross(a: int, b: int)
    ensures DateOf(b) == DateOf(a) ==> b - a == TimeOf(b) - TimeOf(a)
    ensures DateOf(b) == DateOf(a) + 1 ==> b - a == DAY + TimeOf(b) - TimeOf(a)
  {
  }

  lemma {:induction false} LaterDatesAreTrue(c: Calendar, previous: int, lines: seq<Line>)
    requires Expressible(c, lines)
    ensures AllTrue(Dates(c, Some(Reading(DateOf(previous), TimeOf(previous))), lines), lines)
      <==> StepsNearFrom(previous, lines)
    decreases |lines|
  {
    if lines != [] {
      var clock := Some(Reading(DateOf(previous), TimeOf(previous)));
      var next := lines[0].instant;
      StepIsTrue(c, previous, lines[0]);
      LaterDatesAreTrue(c, next, lines[1..]);
      Unroll(c, clock, lines);
      if StepsNear(previous, next) {
        assert Advance(c, clock, TimeOf(next), lines[0].observed) == Some(Reading(DateOf(next), TimeOf(next)));
      }
    }
  }

  lemma Unroll(c: Calendar, clock: Option<Reading>, lines: seq<Line>)
    requires lines != []
    ensures var time := TimeOf(lines[0].instant); var observed := lines[0].observed;
      AllTrue(Dates(c, clock, lines), lines) <==>
        && InferDate(c, clock, time, observed) == Some(DateOf(lines[0].instant))
        && AllTrue(Dates(c, Advance(c, clock, time, observed), lines[1..]), lines[1..])
  {
    var dates := Dates(c, clock, lines);
    assert dates[1..] == Dates(c, Advance(c, clock, TimeOf(lines[0].instant), lines[0].observed), lines[1..]);
    if AllTrue(dates[1..], lines[1..]) && dates[0] == Some(DateOf(lines[0].instant)) {
      forall k | 0 <= k < |lines|
        ensures dates[k] == Some(DateOf(lines[k].instant))
      {
        if k > 0 {
          assert dates[1..][k - 1] == Some(DateOf(lines[1..][k - 1].instant));
        }
      }
    }
  }

  /** Exactly when every date of a run is right. */
  lemma DatesAreTrueIff(c: Calendar, lines: seq<Line>)
    requires Expressible(c, lines) && lines != []
    ensures AllTrue(Dates(c, None, lines), lines) <==>
      StartsNear(lines[0]) && StepsNearFrom(lines[0].instant, lines[1..])
  {
    var first := lines[0].instant;
    FirstIsTrue(c, lines[0]);
    LaterDatesAreTrue(c, first, lines[1..]);
    Unroll(c, None, lines);
  }

  /** Each line follows the one before it by less than half a day. */
  predicate Forward(lines: seq<Line>) {
    forall k :: 0 < k < |lines| ==> 0 <= lines[k].instant - lines[k - 1].instant < HALF_DAY
  }

  lemma {:induction false} ForwardStepsNear(lines: seq<Line>)
    requires lines != [] && Forward(lines)
    ensures StepsNearFrom(lines[0].instant, lines[1..])
  {
    if |lines| > 1 {
      var a := lines[0].instant;
      var b := lines[1].instant;
      assert 0 <= b - a < HALF_DAY;
      NearDates(a, b);
      ForwardStepsNear(lines[1..]);
    }
  }

  lemma NearDates(a: int, b: int)
    requires 0 <= b - a < HALF_DAY
    ensures DateOf(b) == DateOf(a) || DateOf(b) == DateOf(a) + 1
  {
  }

  /**
   A clock that starts less than half a day before its observation and moves
   forward by less than half a day at a time is dated right for ever, over any
   number of midnights.
   */
  lemma ForwardRunsAreDated(c: Calendar, lines: seq<Line>)
    requires Expressible(c, lines) && lines != [] && Forward(lines)
    requires 0 <= lines[0].observed - lines[0].instant < HALF_DAY
    ensures AllTrue(Dates(c, None, lines), lines)
  {
    NearDates(lines[0].instant, lines[0].observed);
    ForwardStepsNear(lines);
    DatesAreTrueIff(c, lines);
  }

  /** A clock that drifts back over midnight, by however little, is dated a day late. */
  lemma DriftOverMidnightIsMissed(c: Calendar, previous: int, line: Line)
    requires DateOf(line.instant) == DateOf(previous) - 1 && previous - line.instant < HALF_DAY
    ensures var clock := Some(Reading(DateOf(previous), TimeOf(previous)));
      InferDate(c, clock, TimeOf(line.instant), line.observed) == Some(DateOf(line.instant) + 1)
  {
    SpanAcross(line.instant, previous);
  }
}

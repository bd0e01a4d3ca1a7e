/** Which night a price timestamp belongs to.

    The script subtracts the current time from a price's start time and looks
    at the `days` component of the resulting timedelta: more than zero days
    ahead is "tomorrow night", zero days is "tonight", and a negative number
    of days gets no label. The rule is applied to the earliest and to the
    latest timestamp of the price series alike.

    Instants are UTC datetimes as Python's subtraction reads them: the day
    ordinal that `toordinal()` gives, the time of day and microseconds. A timedelta is normalised the
    way Python normalises it, so `days` is a floor and not a truncation.
 */
module DayBucket {

  const MicrosPerSecond: int := 1_000_000
  const SecondsPerDay: int := 86_400
  const MicrosPerDay: int := 86_400_000_000

  /** A UTC datetime as subtraction reads it: the `toordinal()` of its date,
      hour, minute, second and microsecond. */
  datatype DateTime = DateTime(ordinal: int, hour: int, minute: int, second: int, microsecond: int)
  {
    /** Seconds since midnight, as Python's subtraction computes them. */
    function SecondOfDay(): int
    {
      second + minute * 60 + hour * 3600
    }

    /** Microseconds since the start of day ordinal 0. */
    function Micros(): int
    {
      ordinal * MicrosPerDay + SecondOfDay() * MicrosPerSecond + microsecond
    }
  }

  /** A timedelta as Python stores it: days, seconds and microseconds. */
  datatype Timedelta = Timedelta(days: int, seconds: int, microseconds: int)
  {
    /** Python's invariant on a stored timedelta. */
    predicate Normalized()
    {
      0 <= seconds < SecondsPerDay && 0 <= microseconds < MicrosPerSecond
    }

    /** The length of the timedelta in microseconds. */
    function TotalMicros(): int
    {
      days * MicrosPerDay + seconds * MicrosPerSecond + microseconds
    }
  }

  /** Python's timedelta constructor on whole numbers: the microseconds carry
      into the seconds and the seconds into the days by floor division, the
      remainders staying in range. The result is normalised and has the
      length that was asked for. */
  function MakeTimedelta(days: int, seconds: int, microseconds: int): (td: Timedelta)
    ensures td.Normalized()
    ensures td.TotalMicros() == days * MicrosPerDay + seconds * MicrosPerSecond + microseconds
  {
    var carrySeconds := microseconds / MicrosPerSecond;
    var micros := microseconds % MicrosPerSecond;
    var allSeconds := seconds + carrySeconds;
    var td := Timedelta(days + allSeconds / SecondsPerDay, allSeconds % SecondsPerDay, micros);
    td
  }

  /** `a - b` for two UTC datetimes: the differences of the day ordinals, of
      the seconds since midnight and of the microseconds, handed to the
      timedelta constructor. */
  function Subtract(a: DateTime, b: DateTime): (td: Timedelta)
    ensures td.Normalized()
    ensures td.TotalMicros() == a.Micros() - b.Micros()
  {
    MakeTimedelta(a.ordinal - b.ordinal,
                  a.SecondOfDay() - b.SecondOfDay(),
                  a.microsecond - b.microsecond)
  }

  /** The `days` of a normalised timedelta is its length floor-divided by a
      day, so it rounds towards minus infinity: one microsecond before now is
      day -1, not day 0. */
  lemma DaysIsFloor(td: Timedelta)
    requires td.Normalized()
    ensures td.days == td.TotalMicros() / MicrosPerDay
  {
  }

  /** The label a timestamp gets. */
  datatype Label = TomorrowNight | Tonight | NoLabel

  /** The branch chain over `.days`. On a timedelta as Python stores it,
      each label is one interval of its length: a day or more, from zero up
      to a day, or negative. */
  function Bucket(delta: Timedelta): (l: Label)
    requires delta.Normalized()
    ensures l == TomorrowNight <==> MicrosPerDay <= delta.TotalMicros()
    ensures l == Tonight <==> 0 <= delta.TotalMicros() < MicrosPerDay
  {
    if delta.days > 0 then TomorrowNight
    else if delta.days == 0 then Tonight
    else NoLabel
  }

  /** The label of a price timestamp, given the current time; exactly the
      timestamps in the past go unlabelled. */
  function LabelOf(timestamp: DateTime, now: DateTime): (l: Label)
    ensures l == NoLabel <==> timestamp.Micros() < now.Micros()
  {
    Bucket(Subtract(timestamp, now))
  }

  /** The label depends on the distance from now alone, and each label covers
      one interval of it: a day or more ahead is tomorrow night, less than a
      day ahead (now included) is tonight, anything in the past is unlabelled. */
  lemma LabelByDistance(timestamp: DateTime, now: DateTime)
    ensures var ahead := timestamp.Micros() - now.Micros();
      && (LabelOf(timestamp, now) == TomorrowNight <==> MicrosPerDay <= ahead)
      && (LabelOf(timestamp, now) == Tonight <==> 0 <= ahead < MicrosPerDay)
      && (LabelOf(timestamp, now) == NoLabel <==> ahead < 0)
  {
  }

  /** Order of the labels along the time axis. */
  function Rank(l: Label): nat
  {
    match l
    case NoLabel => 0
    case Tonight => 1
    case TomorrowNight => 2
  }

  /** The two timestamps are labelled by the same rule, so a later timestamp
      never gets an earlier label: the first hour of the series cannot be
      "tomorrow night" while its last hour is "tonight". */
  lemma LabelsFollowTime(earliest: DateTime, latest: DateTime, now: DateTime)
    requires earliest.Micros() <= latest.Micros()
    ensures Rank(LabelOf(earliest, now)) <= Rank(LabelOf(latest, now))
  {
  }
}

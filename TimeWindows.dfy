/** Time handling shared by the two chart components: instants are integer
    milliseconds since the epoch, the current time is an input, and the
    start/end filter bounds follow the components' truthiness tests. */
module TimeWindows {
  import opened Collections

  const MinuteMs: int := 60 * 1000
  const HourMs: int := 60 * MinuteMs

  /** The readings of the clock a render uses: `new Date()` and the three
      calendar steps back from it, `subDays(new Date(), 7)`,
      `subWeeks(new Date(), 4)` and `subMonths(new Date(), 12)`. These step
      local calendar days and months, so across a daylight-saving change
      they are not a fixed number of milliseconds back; minutes and hours
      are (`subMinutes`, `subHours`). */
  datatype Clock = Clock(now: int, sevenDaysAgo: int, fourWeeksAgo: int, twelveMonthsAgo: int)

  /** A start or end bound as the components compute it: None for the empty
      text (and for text that does not parse), otherwise its `getTime()`. */
  type Bound = Option<int>

  /** `!time` holds for a missing bound and also for the instant 0. */
  predicate Unbounded(b: Bound)
  {
    b.None? || b.value == 0
  }

  /** `(!startTime || t >= startTime) && (!endTime || t <= endTime)`. */
  predicate WithinBounds(t: int, start: Bound, end: Bound)
  {
    (Unbounded(start) || t >= start.value) && (Unbounded(end) || t <= end.value)
  }

  /** An empty bound imposes nothing, and two set bounds give the closed
      interval between them. */
  lemma WithinBoundsExact(t: int, start: Bound, end: Bound)
    ensures start.None? && end.None? ==> WithinBounds(t, start, end)
    ensures start.Some? && start.value != 0 && end.Some? && end.value != 0 ==>
              (WithinBounds(t, start, end) <==> start.value <= t <= end.value)
    ensures start.None? && end.Some? && end.value != 0 ==> (WithinBounds(t, start, end) <==> t <= end.value)
    ensures start.Some? && start.value != 0 && end.None? ==> (WithinBounds(t, start, end) <==> start.value <= t)
  {
  }

  /** `data.filter(entry => new Date(time(entry)) >= from)` when there is a
      window start, and `data` itself when there is none. */
  function KeepFrom<T(!new)>(data: seq<T>, time: T -> int, from: Option<int>): (r: seq<T>)
    ensures |r| <= |data|
    ensures forall k :: 0 <= k < |r| ==> r[k] in data && (from.Some? ==> time(r[k]) >= from.value)
  {
    match from
    case None => data
    case Some(t) => FilterKeeps(data, AtOrAfter(time, t)); Filter(data, AtOrAfter(time, t))
  }

  /** The window test `new Date(time(entry)) >= from`. */
  function AtOrAfter<T(!new)>(time: T -> int, from: int): (test: T -> bool)
    ensures forall e :: test(e) == (time(e) >= from)
  {
    (e: T) => time(e) >= from
  }

  /** Windowing only drops entries: it keeps exactly those at or after the
      window start, in order and with their multiplicities. */
  lemma KeepFromExact<T(!new)>(data: seq<T>, time: T -> int, from: Option<int>)
    ensures from.None? ==> KeepFrom(data, time, from) == data
    ensures IsSubsequence(KeepFrom(data, time, from), data)
    ensures from.Some? ==> forall e :: e in KeepFrom(data, time, from) <==> e in data && time(e) >= from.value
    ensures from.Some? ==> forall e :: time(e) >= from.value ==> multiset(KeepFrom(data, time, from))[e] == multiset(data)[e]
  {
    if from.Some? {
      FilterSpec(data, AtOrAfter(time, from.value));
    } else {
      SubsequenceRefl(data);
    }
  }
}

/**
 * The date-range filter of the top-level component (mini-dashboard/src/App.tsx):
 * the two optional bounds, `setLastDays`, and the `filteredData` predicate.
 */
module App {
  import opened Types
  import UseEvents

  /** `new Date("2025-01-01")`: a date-only ISO string is read as midnight UTC. */
  const DefaultStart: int := 1_735_689_600_000

  function EffectiveStart(start: Option<int>): int
  {
    match start
    case Some(t) => t
    case None => DefaultStart
  }

  function EffectiveEnd(end: Option<int>, now: int): int
  {
    match end
    case Some(t) => t
    case None => now
  }

  /** The interval is ordered whenever a bound is set (the only case the filter model covers). */
  predicate WellFormed(start: Option<int>, end: Option<int>, now: int)
  {
    (start.None? && end.None?) || EffectiveStart(start) <= EffectiveEnd(end, now)
  }

  /** The predicate passed to `data.filter`. */
  predicate Keep(e: UserEvent, start: Option<int>, end: Option<int>, now: int)
  {
    (start.None? && end.None?) || EffectiveStart(start) <= e.createdAt <= EffectiveEnd(end, now)
  }

  /**
   * `filteredData`: with no bound set every event is kept; otherwise an event is
   * kept iff its timestamp lies in [start ?? 2025-01-01, end ?? now], both ends
   * included.
   */
  function FilterByDate(data: seq<UserEvent>, start: Option<int>, end: Option<int>, now: int): (r: seq<UserEvent>)
    requires WellFormed(start, end, now)
    ensures |r| <= |data|
    ensures start.None? && end.None? ==> r == data
    ensures !(start.None? && end.None?) ==>
              forall e :: e in r <==> e in data && EffectiveStart(start) <= e.createdAt <= EffectiveEnd(end, now)
  {
    if data == [] then []
    else (if Keep(data[0], start, end, now) then [data[0]] else []) + FilterByDate(data[1..], start, end, now)
  }

  /** `a` is `b` with some elements dropped, the rest in their original order. */
  predicate IsSubsequence<T(==)>(a: seq<T>, b: seq<T>)
    decreases |b|
  {
    if a == [] then true
    else if b == [] then false
    else (a[0] == b[0] && IsSubsequence(a[1..], b[1..])) || IsSubsequence(a, b[1..])
  }

  /** The filter keeps the original order. */
  lemma {:induction false} FilterIsSubsequence(data: seq<UserEvent>, start: Option<int>, end: Option<int>, now: int)
    requires WellFormed(start, end, now)
    ensures IsSubsequence(FilterByDate(data, start, end, now), data)
  {
    if data != [] {
      FilterIsSubsequence(data[1..], start, end, now);
      var rest := FilterByDate(data[1..], start, end, now);
      if Keep(data[0], start, end, now) {
        assert FilterByDate(data, start, end, now) == [data[0]] + rest;
        assert ([data[0]] + rest)[1..] == rest;
      } else {
        assert FilterByDate(data, start, end, now) == rest;
        if rest != [] {
          assert IsSubsequence(rest, data[1..]);
        }
      }
    }
  }

  /** The filter distributes over concatenation: it decides each event on its own. */
  lemma {:induction false} FilterAppend(a: seq<UserEvent>, b: seq<UserEvent>, start: Option<int>, end: Option<int>, now: int)
    requires WellFormed(start, end, now)
    ensures FilterByDate(a + b, start, end, now) == FilterByDate(a, start, end, now) + FilterByDate(b, start, end, now)
  {
    if a == [] {
      assert a + b == b;
    } else {
      assert (a + b)[1..] == a[1..] + b;
      FilterAppend(a[1..], b, start, end, now);
    }
  }

  /** Filtering an already filtered list with the same bounds changes nothing. */
  lemma {:induction false} FilterIdempotent(data: seq<UserEvent>, start: Option<int>, end: Option<int>, now: int)
    requires WellFormed(start, end, now)
    ensures FilterByDate(FilterByDate(data, start, end, now), start, end, now) == FilterByDate(data, start, end, now)
  {
    if data != [] {
      var rest := FilterByDate(data[1..], start, end, now);
      FilterIdempotent(data[1..], start, end, now);
      if Keep(data[0], start, end, now) {
        assert FilterByDate(data, start, end, now) == [data[0]] + rest;
        FilterAppend([data[0]], rest, start, end, now);
        assert [data[0]][1..] == [];
      } else {
        assert FilterByDate(data, start, end, now) == rest;
      }
    }
  }

  /** A one-instant interval keeps exactly the events stamped with that instant. */
  lemma FilterSingleInstant(data: seq<UserEvent>, t: int, now: int)
    ensures forall e :: e in FilterByDate(data, Some(t), Some(t), now) <==> e in data && e.createdAt == t
  {
  }

  /** The two date cells of the component and the quick-range setter. */
  class DateRange {
    var startDate: Option<int>
    var endDate: Option<int>

    constructor ()
      ensures startDate == None && endDate == None
    {
      startDate := None;
      endDate := None;
    }

    /**
     * `setLastDays(days)`: the start is `days` days before the first clock
     * reading and the end is the second clock reading (the source reads the
     * clock once for each cell).
     */
    method SetLastDays(days: int, clockAtStart: int, clockAtEnd: int)
      modifies this
      ensures startDate == Some(SubDays(clockAtStart, days)) && endDate == Some(clockAtEnd)
      ensures 0 <= days && clockAtStart <= clockAtEnd ==> WellFormed(startDate, endDate, clockAtEnd)
    {
      startDate := Some(SubDays(clockAtStart, days));
      endDate := Some(clockAtEnd);
    }
  }

  /**
   * The "Last 30 days" range set shortly after loading only drops future-dated
   * events: every generated event at or before the end of the range is kept,
   * since a generated timestamp is at most 29 days before the load instant.
   */
  lemma {:induction false} LastThirtyDaysKeepsPastEvents(
    users: seq<UpstreamUser>, rand: nat -> real, loadedAt: int, clockAtStart: int, clockAtEnd: int)
    requires UseEvents.ValidSource(rand)
    requires loadedAt <= clockAtStart <= loadedAt + MsPerDay && clockAtStart <= clockAtEnd
    ensures var events := UseEvents.BuildEvents(users, rand, loadedAt);
            forall e :: e in FilterByDate(events, Some(SubDays(clockAtStart, 30)), Some(clockAtEnd), clockAtEnd)
                    <==> e in events && e.createdAt <= clockAtEnd
  {
    var events := UseEvents.BuildEvents(users, rand, loadedAt);
    forall e | e in events
      ensures SubDays(clockAtStart, 30) <= e.createdAt
    {
      assert loadedAt - 29 * MsPerDay <= e.createdAt;
    }
  }
}

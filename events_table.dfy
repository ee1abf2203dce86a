/**
 * The derived values of the table component
 * (mini-dashboard/src/components/EventsTable.tsx): the rows the operator
 * selected, the per-day counts for the chart, the total amount and the summary
 * counters.
 *
 * The table keys `selectedRows` by row index, so the selection is a map from
 * naturals to booleans. `format(new Date(t), "yyyy-MM-dd")` is the parameter
 * `day`, a function from a timestamp to its calendar-day key.
 */
module EventsTable {
  import opened Types

  /** The value of `data[k]`: an event, or `undefined` when `k` is past the end. */
  datatype Row = Defined(event: UserEvent) | Undefined

  /** One chart entry; the source names the count `events`. */
  datatype ChartPoint = ChartPoint(date: string, events: nat)

  // ---------------------------------------------------------------------------
  // Selection
  // ---------------------------------------------------------------------------

  /** `m` is the smallest element of `s`. */
  predicate IsLeast(m: nat, s: set<nat>)
  {
    m in s && forall x :: x in s ==> m <= x
  }

  lemma {:induction false} MinimumExists(s: set<nat>)
    requires s != {}
    ensures exists m :: IsLeast(m, s)
    decreases |s|
  {
    var y :| y in s;
    if s == {y} {
      assert IsLeast(y, s);
    } else {
      var rest := s - {y};
      MinimumExists(rest);
      var m :| IsLeast(m, rest);
      var least := if y < m then y else m;
      forall x | x in s
        ensures least <= x
      {
        if x != y {
          assert x in rest;
        }
      }
      assert IsLeast(least, s);
    }
  }

  function Minimum(s: set<nat>): (m: nat)
    requires s != {}
    ensures IsLeast(m, s)
  {
    MinimumExists(s);
    var m :| IsLeast(m, s); m
  }

  /** The keys of a set in ascending order, each once. */
  function SortedKeys(s: set<nat>): (r: seq<nat>)
    ensures |r| == |s|
    ensures forall k :: k in r <==> k in s
    ensures forall i, j :: 0 <= i < j < |r| ==> r[i] < r[j]
    decreases |s|
  {
    if s == {} then []
    else
      var m := Minimum(s);
      [m] + SortedKeys(s - {m})
  }

  /**
   * `Object.keys(selectedRows)`: integer-like keys come out in ascending
   * numeric order (section 10.1.11.1 of ECMA-262, OrdinaryOwnPropertyKeys),
   * one per selected row whatever its boolean value.
   */
  function SelectedIds(selected: map<nat, bool>): (ids: seq<nat>)
    ensures |ids| == |selected|
    ensures forall k :: k in ids <==> k in selected
    ensures forall i, j :: 0 <= i < j < |ids| ==> ids[i] < ids[j]
  {
    assert |selected.Keys| == |selected|;
    SortedKeys(selected.Keys)
  }

  function Lookup(data: seq<UserEvent>, k: nat): Row
  {
    if k < |data| then Defined(data[k]) else Undefined
  }

  /** Every event as a defined row. */
  function Wrap(events: seq<UserEvent>): (rows: seq<Row>)
    ensures |rows| == |events| && forall i :: 0 <= i < |events| ==> rows[i] == Defined(events[i])
  {
    seq(|events|, i requires 0 <= i < |events| => Defined(events[i]))
  }

  /**
   * `activeData` as written: all of `data` when nothing is selected, otherwise
   * `data[k]` for each selected key `k` in ascending order, which is `undefined`
   * for a key at or past the end of `data`.
   */
  function ActiveData(data: seq<UserEvent>, selected: map<nat, bool>): (active: seq<Row>)
    ensures |selected| == 0 ==> active == Wrap(data)
    ensures |selected| > 0 ==> |active| == |selected|
    ensures |selected| > 0 ==> forall i :: 0 <= i < |active| ==>
              var k := SelectedIds(selected)[i];
              (k < |data| ==> active[i] == Defined(data[k])) && (k >= |data| ==> active[i] == Undefined)
  {
    var ids := SelectedIds(selected);
    if |ids| == 0 then Wrap(data)
    else seq(|ids|, i requires 0 <= i < |ids| => Lookup(data, ids[i]))
  }

  /** Only the keys of the selection matter, not their boolean values. */
  lemma SelectionValuesIgnored(data: seq<UserEvent>, s1: map<nat, bool>, s2: map<nat, bool>)
    requires s1.Keys == s2.Keys
    ensures ActiveData(data, s1) == ActiveData(data, s2)
  {
  }

  /**
   * A selected index that the current `data` no longer reaches (the date filter
   * shrank `data` after the row was selected) becomes `undefined`, whose
   * `createdAt` the chart then reads.
   */
  lemma StaleSelectionIsUndefined(data: seq<UserEvent>, selected: map<nat, bool>, k: nat)
    requires k in selected && k >= |data|
    ensures Undefined in ActiveData(data, selected)
  {
    var ids := SelectedIds(selected);
    var i :| 0 <= i < |ids| && ids[i] == k;
    assert ActiveData(data, selected)[i] == Undefined;
  }

  /** The smallest such case: one event on screen, the second row still selected. */
  lemma StaleSelectionExample(e: UserEvent)
    ensures ActiveData([e], map[1 := true]) == [Undefined]
  {
    StaleSelectionIsUndefined([e], map[1 := true], 1);
  }

  /** The selected keys `ids` resolved against `data`, skipping keys past its end. */
  function Resolve(data: seq<UserEvent>, ids: seq<nat>): (r: seq<UserEvent>)
    ensures |r| <= |ids|
    ensures forall e :: e in r ==> e in data
    ensures (forall i :: 0 <= i < |ids| ==> ids[i] < |data|) ==>
              |r| == |ids| && forall i :: 0 <= i < |ids| ==> r[i] == data[ids[i]]
  {
    if ids == [] then []
    else (if ids[0] < |data| then [data[ids[0]]] else []) + Resolve(data, ids[1..])
  }

  /**
   * `activeData` corrected: the selected rows that exist in the current `data`,
   * in ascending key order, or all of `data` when nothing is selected. Every
   * entry is an event of `data`, so the chart never reads `undefined`.
   */
  function ActiveEvents(data: seq<UserEvent>, selected: map<nat, bool>): (active: seq<UserEvent>)
    ensures |selected| == 0 ==> active == data
    ensures forall e :: e in active ==> e in data
    ensures |selected| > 0 ==> |active| <= |selected|
  {
    var ids := SelectedIds(selected);
    if |ids| == 0 then data else Resolve(data, ids)
  }

  /** The defined entries of `rows`, in order. */
  function DefinedEvents(rows: seq<Row>): seq<UserEvent>
  {
    if rows == [] then [] else (if rows[0].Defined? then [rows[0].event] else []) + DefinedEvents(rows[1..])
  }

  lemma {:induction false} ResolveIsDefinedPart(data: seq<UserEvent>, ids: seq<nat>)
    ensures Resolve(data, ids) == DefinedEvents(seq(|ids|, i requires 0 <= i < |ids| => Lookup(data, ids[i])))
  {
    if ids != [] {
      ResolveIsDefinedPart(data, ids[1..]);
      var rows := seq(|ids|, i requires 0 <= i < |ids| => Lookup(data, ids[i]));
      assert rows[1..] == seq(|ids[1..]|, i requires 0 <= i < |ids[1..]| => Lookup(data, ids[1..][i]));
    }
  }

  /**
   * With a selection the corrected rows are exactly the source's rows with the
   * `undefined` entries left out, in the same order.
   */
  lemma ActiveEventsDropsUndefined(data: seq<UserEvent>, selected: map<nat, bool>)
    requires |selected| > 0
    ensures ActiveEvents(data, selected) == DefinedEvents(ActiveData(data, selected))
  {
    ResolveIsDefinedPart(data, SelectedIds(selected));
  }

  lemma SelectedIdsBelow(data: seq<UserEvent>, selected: map<nat, bool>)
    requires forall k :: k in selected ==> k < |data|
    ensures var ids := SelectedIds(selected); forall i :: 0 <= i < |ids| ==> ids[i] < |data|
  {
    var ids := SelectedIds(selected);
    forall i | 0 <= i < |ids|
      ensures ids[i] < |data|
    {
      assert ids[i] in ids;
    }
  }

  lemma RowsEqual(a: seq<Row>, b: seq<Row>)
    requires |a| == |b| && forall i :: 0 <= i < |a| ==> a[i] == b[i]
    ensures a == b
  {
  }

  /** Where the source does not fail, the corrected selection is the one it computes. */
  lemma ActiveEventsAgree(data: seq<UserEvent>, selected: map<nat, bool>)
    requires forall k :: k in selected ==> k < |data|
    ensures ActiveData(data, selected) == Wrap(ActiveEvents(data, selected))
  {
    var ids := SelectedIds(selected);
    if |ids| > 0 {
      SelectedIdsBelow(data, selected);
      var r := Resolve(data, ids);
      var active := ActiveData(data, selected);
      var wrapped := Wrap(r);
      assert |r| == |ids| && |active| == |ids| && |wrapped| == |ids|;
      forall i | 0 <= i < |ids|
        ensures active[i] == wrapped[i]
      {
        assert r[i] == data[ids[i]];
      }
      RowsEqual(active, wrapped);
      assert ActiveEvents(data, selected) == r;
    }
  }

  // ---------------------------------------------------------------------------
  // Per-day counts
  // ---------------------------------------------------------------------------

  /** No element of `ds` occurs twice. */
  predicate Distinct(ds: seq<string>)
  {
    forall i, j :: 0 <= i < j < |ds| ==> ds[i] != ds[j]
  }

  /** The distinct day keys of `events`, in the order each first appears. */
  function Days(events: seq<UserEvent>, day: int -> string): seq<string>
  {
    if events == [] then []
    else
      var ds := Days(events[..|events| - 1], day);
      var d := day(events[|events| - 1].createdAt);
      if d in ds then ds else ds + [d]
  }

  /** The number of events whose day key is `d`. */
  function CountOn(events: seq<UserEvent>, day: int -> string, d: string): nat
  {
    if events == [] then 0
    else CountOn(events[..|events| - 1], day, d) + (if day(events[|events| - 1].createdAt) == d then 1 else 0)
  }

  /** The index of the first event on day `d`, or |events| when there is none. */
  function FirstOn(events: seq<UserEvent>, day: int -> string, d: string): (i: nat)
    ensures i <= |events|
    ensures i < |events| ==> day(events[i].createdAt) == d
    ensures forall j :: 0 <= j < i && j < |events| ==> day(events[j].createdAt) != d
  {
    if events == [] then 0
    else
      var p := events[..|events| - 1];
      var f := FirstOn(p, day, d);
      if f < |p| then f
      else if day(events[|events| - 1].createdAt) == d then |p|
      else |events|
  }

  /** One point per day key of `ds`, carrying that day's count in `events`. */
  function Points(ds: seq<string>, events: seq<UserEvent>, day: int -> string): (points: seq<ChartPoint>)
    ensures |points| == |ds|
    ensures forall j :: 0 <= j < |ds| ==> points[j] == ChartPoint(ds[j], CountOn(events, day, ds[j]))
  {
    if ds == [] then [] else [ChartPoint(ds[0], CountOn(events, day, ds[0]))] + Points(ds[1..], events, day)
  }

  /** The chart series: one point per distinct day, in first-occurrence order. */
  function ChartOf(events: seq<UserEvent>, day: int -> string): seq<ChartPoint>
  {
    Points(Days(events, day), events, day)
  }

  /**
   * `chartData`: one pass over the events updating an insertion-ordered map
   * (`map.set(day, (map.get(day) ?? 0) + 1)`), then its entries in insertion
   * order. The JavaScript `Map` is the pair `order` (its keys in insertion
   * order) and `counts` (its contents).
   */
  method ChartData(active: seq<UserEvent>, day: int -> string) returns (points: seq<ChartPoint>)
    ensures points == ChartOf(active, day)
  {
    var order: seq<string> := [];
    var counts: map<string, nat> := map[];
    var i := 0;
    while i < |active|
      invariant 0 <= i <= |active|
      invariant order == Days(active[..i], day)
      invariant forall d :: d in counts <==> d in order
      invariant forall d :: d in counts ==> counts[d] == CountOn(active[..i], day, d)
    {
      var d := day(active[i].createdAt);
      var previous := if d in counts then counts[d] else 0;
      if d !in counts {
        order := order + [d];
      }
      counts := counts[d := previous + 1];
      assert active[..i + 1][..i] == active[..i];
      DaysMeaning(active[..i], day, d);
      i := i + 1;
    }
    assert active[..i] == active;
    points := seq(|order|, j requires 0 <= j < |order| => ChartPoint(order[j], counts[order[j]]));
  }

  /**
   * A day is in the series iff some event falls on it, and then its first
   * event is at `FirstOn` and its count is positive.
   */
  lemma {:induction false} DaysMeaning(events: seq<UserEvent>, day: int -> string, d: string)
    ensures d in Days(events, day) <==> CountOn(events, day, d) > 0
    ensures d in Days(events, day) <==> FirstOn(events, day, d) < |events|
  {
    if events != [] {
      DaysMeaning(events[..|events| - 1], day, d);
    }
  }

  lemma {:induction false} DaysDistinct(events: seq<UserEvent>, day: int -> string)
    ensures Distinct(Days(events, day))
  {
    if events != [] {
      var p := events[..|events| - 1];
      var dp := Days(p, day);
      var d := day(events[|events| - 1].createdAt);
      DaysDistinct(p, day);
      if d !in dp {
        var ds := dp + [d];
        forall i, j | 0 <= i < j < |ds|
          ensures ds[i] != ds[j]
        {
          assert ds[i] == dp[i] && dp[i] in dp;
          if j < |dp| {
            assert ds[j] == dp[j];
          } else {
            assert ds[j] == d;
          }
        }
      }
    }
  }

  /** The chart never lists a date twice. */
  lemma ChartDatesDistinct(events: seq<UserEvent>, day: int -> string)
    ensures var points := ChartOf(events, day);
            forall i, j :: 0 <= i < j < |points| ==> points[i].date != points[j].date
  {
    var ds := Days(events, day);
    var points := ChartOf(events, day);
    DaysDistinct(events, day);
    forall i, j | 0 <= i < j < |points|
      ensures points[i].date != points[j].date
    {
      assert points[i].date == ds[i] && points[j].date == ds[j];
    }
  }

  /** The chart has a point for a date iff some event falls on that date. */
  lemma ChartCoversDays(events: seq<UserEvent>, day: int -> string, d: string)
    ensures (exists j :: 0 <= j < |ChartOf(events, day)| && ChartOf(events, day)[j].date == d)
            <==> (exists i :: 0 <= i < |events| && day(events[i].createdAt) == d)
  {
    DaysMeaning(events, day, d);
    var ds := Days(events, day);
    if d in ds {
      var j :| 0 <= j < |ds| && ds[j] == d;
      assert ChartOf(events, day)[j].date == d;
      var f := FirstOn(events, day, d);
      assert day(events[f].createdAt) == d;
    }
  }

  /** Every point counts the events on its date, and that count is at least one. */
  lemma ChartCountsPositive(events: seq<UserEvent>, day: int -> string)
    ensures var points := ChartOf(events, day);
            forall j :: 0 <= j < |points| ==>
              points[j].events == CountOn(events, day, points[j].date) && points[j].events >= 1
  {
    var ds := Days(events, day);
    forall j | 0 <= j < |ds|
      ensures CountOn(events, day, ds[j]) >= 1
    {
      DaysMeaning(events, day, ds[j]);
    }
  }

  /** Days appear in the order their first event appears in the input. */
  lemma {:induction false} ChartFirstOccurrenceOrder(events: seq<UserEvent>, day: int -> string)
    ensures var ds := Days(events, day);
            forall j, k :: 0 <= j < k < |ds| ==> FirstOn(events, day, ds[j]) < FirstOn(events, day, ds[k])
  {
    if events != [] {
      var ds := Days(events, day);
      var p := events[..|events| - 1];
      var x := day(events[|events| - 1].createdAt);
      var dp := Days(p, day);
      ChartFirstOccurrenceOrder(p, day);
      forall d | d in dp
        ensures FirstOn(events, day, d) == FirstOn(p, day, d) < |p|
      {
        DaysMeaning(p, day, d);
      }
      if x !in dp {
        assert ds == dp + [x];
        DaysMeaning(p, day, x);
        assert FirstOn(events, day, x) == |p|;
        forall j, k | 0 <= j < k < |ds|
          ensures FirstOn(events, day, ds[j]) < FirstOn(events, day, ds[k])
        {
          assert ds[j] == dp[j] && dp[j] in dp;
          if k < |dp| {
            assert ds[k] == dp[k] && dp[k] in dp;
          } else {
            assert ds[k] == x;
          }
        }
      } else {
        assert ds == dp;
      }
    }
  }

  /** No events, no points. */
  lemma ChartOfEmpty(day: int -> string)
    ensures ChartOf([], day) == []
  {
  }

  /** The sum of the counts of a series. */
  function TotalEvents(points: seq<ChartPoint>): nat
  {
    if points == [] then 0 else points[0].events + TotalEvents(points[1..])
  }

  lemma {:induction false} TotalEventsAppend(a: seq<ChartPoint>, b: seq<ChartPoint>)
    ensures TotalEvents(a + b) == TotalEvents(a) + TotalEvents(b)
  {
    if a != [] {
      assert (a + b)[0] == a[0];
      assert (a + b)[1..] == a[1..] + b;
      assert TotalEvents(a + b) == a[0].events + TotalEvents(a[1..] + b);
      TotalEventsAppend(a[1..], b);
    } else {
      assert a + b == b;
    }
  }

  /** How many times `x` occurs in `ds`. */
  function Occurrences(ds: seq<string>, x: string): nat
  {
    if ds == [] then 0 else (if ds[0] == x then 1 else 0) + Occurrences(ds[1..], x)
  }

  lemma {:induction false} OccurrencesDistinct(ds: seq<string>, x: string)
    requires Distinct(ds)
    ensures Occurrences(ds, x) == if x in ds then 1 else 0
  {
    if ds != [] {
      OccurrencesDistinct(ds[1..], x);
      if ds[0] == x {
        assert x !in ds[1..];
      }
    }
  }

  /** One more event adds one to the count of each listed copy of its day. */
  lemma {:induction false} PointsSnoc(ds: seq<string>, events: seq<UserEvent>, e: UserEvent, day: int -> string)
    ensures TotalEvents(Points(ds, events + [e], day))
            == TotalEvents(Points(ds, events, day)) + Occurrences(ds, day(e.createdAt))
  {
    if ds != [] {
      PointsSnoc(ds[1..], events, e, day);
      assert (events + [e])[..|events + [e]| - 1] == events;
    }
  }

  lemma {:induction false} PointsAppendDay(ds: seq<string>, x: string, events: seq<UserEvent>, day: int -> string)
    ensures Points(ds + [x], events, day) == Points(ds, events, day) + [ChartPoint(x, CountOn(events, day, x))]
  {
  }

  /** The counts add up to the number of events. */
  lemma {:induction false} ChartCountsSum(events: seq<UserEvent>, day: int -> string)
    ensures TotalEvents(ChartOf(events, day)) == |events|
  {
    if events != [] {
      var p := events[..|events| - 1];
      var e := events[|events| - 1];
      var x := day(e.createdAt);
      var dp := Days(p, day);
      assert events == p + [e];
      ChartCountsSum(p, day);
      DaysDistinct(p, day);
      OccurrencesDistinct(dp, x);
      PointsSnoc(dp, p, e, day);
      if x !in dp {
        PointsAppendDay(dp, x, events, day);
        TotalEventsAppend(Points(dp, events, day), [ChartPoint(x, CountOn(events, day, x))]);
        DaysMeaning(p, day, x);
        assert TotalEvents([ChartPoint(x, CountOn(events, day, x))]) == CountOn(events, day, x) == 1;
      }
    }
  }

  /** Three events on 2025-01-01, 2025-01-01 and 2025-01-02 give two points, in first-occurrence order. */
  lemma ChartExample(e1: UserEvent, e2: UserEvent, e3: UserEvent, day: int -> string)
    requires day(e1.createdAt) == "2025-01-01" && day(e2.createdAt) == "2025-01-01"
    requires day(e3.createdAt) == "2025-01-02"
    ensures ChartOf([e1, e2, e3], day) == [ChartPoint("2025-01-01", 2), ChartPoint("2025-01-02", 1)]
  {
    var s := [e1, e2, e3];
    assert s[..2] == [e1, e2] && [e1, e2][..1] == [e1] && [e1][..0] == [];
    assert Days([e1], day) == ["2025-01-01"];
    assert Days([e1, e2], day) == ["2025-01-01"];
    assert Days(s, day) == ["2025-01-01", "2025-01-02"];
    assert CountOn([e1], day, "2025-01-01") == 1 && CountOn([e1], day, "2025-01-02") == 0;
    assert CountOn([e1, e2], day, "2025-01-01") == 2 && CountOn([e1, e2], day, "2025-01-02") == 0;
    assert CountOn(s, day, "2025-01-01") == 2 && CountOn(s, day, "2025-01-02") == 1;
  }

  // ---------------------------------------------------------------------------
  // Totals and counters
  // ---------------------------------------------------------------------------

  /** `e.amount ?? 0`. */
  function AmountOrZero(e: UserEvent): int
  {
    match e.amount
    case Some(a) => a
    case None => 0
  }

  /**
   * `data.reduce((sum, e) => sum + (e.amount ?? 0), 0)`: a left fold over the
   * displayed data, at least zero when no amount is negative and at most
   * 999 per event when every amount is at most 999.
   */
  function TotalAmount(data: seq<UserEvent>): (total: int)
    ensures (forall e :: e in data ==> AmountOrZero(e) >= 0) ==> total >= 0
    ensures (forall e :: e in data ==> AmountOrZero(e) <= 999) ==> total <= 999 * |data|
  {
    if data == [] then 0
    else
      assert forall e :: e in data[..|data| - 1] ==> e in data;
      TotalAmount(data[..|data| - 1]) + AmountOrZero(data[|data| - 1])
  }

  /** One event contributes its `amount ?? 0`. */
  lemma TotalAmountSingleton(e: UserEvent)
    ensures TotalAmount([e]) == AmountOrZero(e)
  {
  }

  /** The total is the first event's `amount ?? 0` plus the total of the rest. */
  lemma TotalAmountCons(e: UserEvent, rest: seq<UserEvent>)
    ensures TotalAmount([e] + rest) == AmountOrZero(e) + TotalAmount(rest)
  {
    TotalAmountAppend([e], rest);
    TotalAmountSingleton(e);
  }

  /** The total of two lists concatenated is the sum of their totals. */
  lemma {:induction false} TotalAmountAppend(a: seq<UserEvent>, b: seq<UserEvent>)
    ensures TotalAmount(a + b) == TotalAmount(a) + TotalAmount(b)
    decreases |b|
  {
    if b == [] {
      assert a + b == a;
    } else {
      var b' := b[..|b| - 1];
      assert (a + b)[..|a + b| - 1] == a + b';
      assert b[..|b| - 1] == b';
      TotalAmountAppend(a, b');
    }
  }

  /** The three summary cards. */
  datatype Summary = Summary(totalEvents: nat, totalAmount: int, selectedEvents: nat)

  /**
   * "Total events" is the number of displayed rows, "Total amount" their
   * total, whatever the selection, and "Selected events" the number of keys
   * `Object.keys` returns.
   */
  function Summarize(data: seq<UserEvent>, selected: map<nat, bool>): (s: Summary)
    ensures s.totalEvents == |data|
    ensures s.selectedEvents == |SelectedIds(selected)|
    ensures s.totalAmount == TotalAmount(data)
  {
    Summary(|data|, TotalAmount(data), |selected|)
  }

  /**
   * The chart agrees with the cards: with nothing selected its counts add up
   * to "Total events", and with a selection that the data still covers they
   * add up to "Selected events".
   */
  lemma ChartMatchesSummary(data: seq<UserEvent>, selected: map<nat, bool>, day: int -> string)
    ensures |selected| == 0 ==>
              TotalEvents(ChartOf(ActiveEvents(data, selected), day)) == Summarize(data, selected).totalEvents
    ensures |selected| > 0 && (forall k :: k in selected ==> k < |data|) ==>
              TotalEvents(ChartOf(ActiveEvents(data, selected), day)) == Summarize(data, selected).selectedEvents
  {
    var active := ActiveEvents(data, selected);
    ChartCountsSum(active, day);
    if |selected| > 0 && (forall k :: k in selected ==> k < |data|) {
      ActiveEventsAgree(data, selected);
      assert |Wrap(active)| == |active|;
    }
  }

  /** The chart series for the current data and selection. */
  method RenderChart(data: seq<UserEvent>, selected: map<nat, bool>, day: int -> string) returns (points: seq<ChartPoint>)
    ensures points == ChartOf(ActiveEvents(data, selected), day)
    ensures TotalEvents(points) == |ActiveEvents(data, selected)|
  {
    points := ChartData(ActiveEvents(data, selected), day);
    ChartCountsSum(ActiveEvents(data, selected), day);
  }
}

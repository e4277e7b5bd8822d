/** The daily usage rollup: minute rows arrive, age out and are rolled up by a view that recomputes a
    window of days on every refresh. Times are milliseconds; days are whole UTC days. */
module Rollup {
  import opened Order
  import opened Wrappers

  const MINUTE := 60_000
  const DAY := 1440 * MINUTE
  const OVERLAP := 10 * MINUTE
  const WINDOW_DAYS := 5
  const TTL_DAYS := 7

  function Day(t: int): int { t / DAY }

  datatype Scope = Scope(metric: string, org: string)
  datatype Key = Key(scope: Scope, minute: int)
  datatype Row = Row(key: Key, value: real, computedAt: int)
  datatype DayKey = DayKey(day: int, scope: Scope)
  datatype DayRow = DayRow(value: real, computedAt: int)

  // A refresh that has read its source but not yet written its rows.
  datatype Refresh = Refresh(start: int, from: int, source: map<Key, Row>)

  datatype State = State(
    now: int,
    live: map<Key, Row>,        // the row each minute keeps under FINAL
    superseded: set<Row>,       // older rows of the same minutes, not merged away yet
    inFlight: set<Row>,         // rows stamped by a minute rollup, not visible yet
    daily: map<DayKey, DayRow>, // the newest row of each day
    refresh: Option<Refresh>)

  // How long a stamped minute row may stay invisible, and a refresh run; and the daily aggregate.
  datatype Setup = Setup(lag: int, span: int, agg: (Scope, map<int, real>) -> real)

  datatype Event =
    | Stamp(row: Row)
    | Land(row: Row)
    | Tick(now: int)
    | Merge(row: Row)
    | Expire(day: int)
    | Begin
    | Finish

  // ----- the view

  ghost function MinOrNull(s: set<int>): (r: Option<int>)
    ensures r.None? <==> s == {}
    ensures r.Some? ==> r.value in s && forall x :: x in s ==> r.value <= x
  {
    if s == {} then None
    else
      var x := Any(s);
      var rest := MinOrNull(s - {x});
      assert s == (s - {x}) + {x};
      if rest.None? || x <= rest.value then Some(x) else rest
  }

  // `max(computed_at)` of the daily table, which is the epoch on an empty one.
  ghost function LastWrite(daily: map<DayKey, DayRow>): (m: int)
    ensures forall k :: k in daily ==> daily[k].computedAt <= m
    ensures daily == map[] ==> m == 0
    ensures daily != map[] ==> exists k :: k in daily && daily[k].computedAt == m
  {
    if daily == map[] then 0
    else
      var stamps := set k | k in daily :: -daily[k].computedAt;
      var k :| k in daily;
      assert forall j :: j in daily ==> -daily[j].computedAt in stamps;
      assert k in daily;
      -MinOrNull(stamps).value
  }

  ghost function Rows(s: State): set<Row> {
    s.live.Values + s.superseded
  }

  // The days of the minute rows the view takes for written since the last daily write.
  ghost function ChangedDays(s: State): set<int> {
    set r | r in Rows(s) && r.key.minute >= (Day(s.now) - WINDOW_DAYS) * DAY
            && r.computedAt > LastWrite(s.daily) - OVERLAP :: Day(r.key.minute)
  }

  function Least(a: int, b: int): int { if a < b then a else b }
  function Greatest(a: int, b: int): int { if a < b then b else a }
  function IfNull(a: Option<int>, b: int): int { if a.None? then b else a.value }

  ghost function From(s: State): int {
    var today := Day(s.now);
    Greatest(today - WINDOW_DAYS, Least(today - 2, IfNull(MinOrNull(ChangedDays(s)), today - 2)))
  }

  // The minutes one day of one scope holds.
  ghost function DayOf(live: map<Key, Row>, d: int, g: Scope): map<int, real> {
    var minutes := set k | k in live && k.scope == g && Day(k.minute) == d :: k.minute;
    map m | m in minutes :: live[Key(g, m)].value
  }

  ghost function Written(setup: Setup, f: Refresh, now: int): map<DayKey, DayRow> {
    var keys := set k | k in f.source && f.from <= Day(k.minute) < Day(f.start) + 1 :: DayKey(Day(k.minute), k.scope);
    map k | k in keys :: DayRow(setup.agg(k.scope, DayOf(f.source, k.day, k.scope)), now)
  }

  // ----- the steps

  ghost predicate Next(setup: Setup, s: State, e: Event, s': State) {
    match e
    case Stamp(row) =>
      row.computedAt == s.now && 0 <= row.key.minute <= s.now &&
      s' == s.(inFlight := s.inFlight + {row})
    case Land(row) =>
      row in s.inFlight &&
      var k := row.key;
      s' == (if k in s.live && s.live[k].computedAt > row.computedAt then
               s.(inFlight := s.inFlight - {row}, superseded := s.superseded + {row})
             else
               s.(inFlight := s.inFlight - {row}, live := s.live[k := row],
                  superseded := s.superseded + (if k in s.live then {s.live[k]} else {})))
    case Tick(now) =>
      s.now < now &&
      (forall r :: r in s.inFlight ==> now <= r.computedAt + setup.lag) &&
      (s.refresh.Some? ==> now <= s.refresh.value.start + setup.span) &&
      s' == s.(now := now)
    case Merge(row) =>
      s' == s.(superseded := s.superseded - {row})
    case Expire(day) =>
      day + TTL_DAYS <= Day(s.now) &&
      s' == s.(live := map k | k in s.live && Day(k.minute) != day :: s.live[k],
               superseded := set r | r in s.superseded && Day(r.key.minute) != day)
    case Begin =>
      s.refresh.None? && s' == s.(refresh := Some(Refresh(s.now, From(s), s.live)))
    case Finish =>
      s.refresh.Some? &&
      s' == s.(refresh := None, daily := s.daily + Written(setup, s.refresh.value, s.now))
  }

  ghost predicate Init(s: State) {
    s.now >= 0 && s.live == map[] && s.superseded == {} && s.inFlight == {} && s.daily == map[] && s.refresh.None?
  }

  ghost predicate IsRun(setup: Setup, states: seq<State>, events: seq<Event>) {
    |states| == |events| + 1 && Init(states[0]) &&
    forall i :: 0 <= i < |events| ==> Next(setup, states[i], events[i], states[i + 1])
  }

  // ----- what every step keeps

  // The newest daily rows of day `d` are the aggregates of the minutes in `live`.
  ghost predicate Exact(setup: Setup, live: map<Key, Row>, daily: map<DayKey, DayRow>, d: int) {
    forall g :: ExactFor(setup, live, daily, d, g)
  }

  ghost predicate ExactFor(setup: Setup, live: map<Key, Row>, daily: map<DayKey, DayRow>, d: int, g: Scope) {
    var minutes, k := DayOf(live, d, g), DayKey(d, g);
    if minutes == map[] then k !in daily else k in daily && daily[k].value == setup.agg(g, minutes)
  }

  // Some stored row of day `d` was stamped after `t`.
  ghost predicate StampedAfter(s: State, d: int, t: int) {
    exists r :: r in Rows(s) && Day(r.key.minute) == d && r.computedAt > t
  }

  ghost predicate RowOk(s: State, r: Row) {
    0 <= r.key.minute <= r.computedAt <= s.now
  }

  ghost predicate Stored(s: State) {
    && (forall k :: k in s.live ==> s.live[k].key == k && RowOk(s, s.live[k]))
    && (forall r :: r in s.superseded ==> RowOk(s, r) && r.key in s.live && s.live[r.key].computedAt >= r.computedAt)
  }

  ghost predicate Flying(setup: Setup, s: State) {
    forall r :: r in s.inFlight ==>
      RowOk(s, r) && s.now <= r.computedAt + setup.lag && r.computedAt > LastWrite(s.daily) - OVERLAP
  }

  ghost predicate InWindow(s: State, d: int) {
    d >= Day(s.now) - WINDOW_DAYS
  }

  // A day of the window is up to date, or the next refresh will see a row that makes it recompute the day.
  ghost predicate Covered(setup: Setup, s: State) {
    && (forall d :: InWindow(s, d) ==>
          Exact(setup, s.live, s.daily, d) || StampedAfter(s, d, LastWrite(s.daily) - OVERLAP))
    && (forall k :: k in s.daily && InWindow(s, k.day) ==> DayOf(s.live, k.day, k.scope) != map[])
    && LastWrite(s.daily) <= s.now
  }

  ghost predicate SameDay(a: map<Key, Row>, b: map<Key, Row>, d: int) {
    forall g :: DayOf(a, d, g) == DayOf(b, d, g)
  }

  ghost predicate Running(setup: Setup, s: State, f: Refresh) {
    && f.start <= s.now <= f.start + setup.span
    && f.from <= Day(f.start) - 2
    && (forall k :: k in f.source ==> k.minute <= f.start && (InWindow(s, Day(k.minute)) ==> k in s.live))
    && (forall d :: Day(f.start) - WINDOW_DAYS <= d < f.from ==> Exact(setup, f.source, s.daily, d))
    && (forall k :: k in s.daily && k.day >= Day(f.start) - WINDOW_DAYS ==> DayOf(f.source, k.day, k.scope) != map[])
    && (forall d :: InWindow(s, d) ==> SameDay(f.source, s.live, d) || StampedAfter(s, d, f.start - setup.lag - 1))
  }

  ghost predicate Inv(setup: Setup, s: State) {
    && s.now >= 0
    && Stored(s)
    && Flying(setup, s)
    && Covered(setup, s)
    && (s.refresh.Some? ==> Running(setup, s, s.refresh.value))
  }

  ghost predicate Timely(setup: Setup) {
    0 <= setup.lag && 0 <= setup.span && setup.lag + setup.span < OVERLAP
  }

  lemma InitInv(setup: Setup, s: State)
    requires Timely(setup) && Init(s)
    ensures Inv(setup, s)
  {
    forall d, g
      ensures ExactFor(setup, s.live, s.daily, d, g)
    {
      assert DayOf(s.live, d, g) == map[];
    }
  }

  lemma DayMono(a: int, b: int)
    requires a <= b
    ensures Day(a) <= Day(b)
    ensures Day(a) * DAY <= a < (Day(a) + 1) * DAY
  {
  }

  lemma StampStep(setup: Setup, s: State, row: Row, s': State)
    requires Timely(setup) && Inv(setup, s) && Next(setup, s, Stamp(row), s')
    ensures Inv(setup, s')
  {
    assert Rows(s') == Rows(s);
    forall d, t | StampedAfter(s, d, t) ensures StampedAfter(s', d, t) {}
  }

  lemma TickStep(setup: Setup, s: State, now: int, s': State)
    requires Timely(setup) && Inv(setup, s) && Next(setup, s, Tick(now), s')
    ensures Inv(setup, s')
  {
    assert Rows(s') == Rows(s);
    DayMono(s.now, s'.now);
    forall d, t | StampedAfter(s, d, t) ensures StampedAfter(s', d, t) {}
  }

  lemma MergeStep(setup: Setup, s: State, row: Row, s': State)
    requires Timely(setup) && Inv(setup, s) && Next(setup, s, Merge(row), s')
    ensures Inv(setup, s')
  {
    forall d, t | StampedAfter(s, d, t)
      ensures StampedAfter(s', d, t)
    {
      var r :| r in Rows(s) && Day(r.key.minute) == d && r.computedAt > t;
      if r == row && r in s.superseded {
        assert s.live[r.key] in Rows(s');
      } else {
        assert r in Rows(s');
      }
    }
  }

  // A day whose minutes did not change is as exact as it was.
  lemma ExactAgain(setup: Setup, a: map<Key, Row>, b: map<Key, Row>, daily: map<DayKey, DayRow>, d: int)
    requires SameDay(a, b, d) && Exact(setup, a, daily, d)
    ensures Exact(setup, b, daily, d)
  {
    forall g
      ensures ExactFor(setup, b, daily, d, g)
    {
      assert ExactFor(setup, a, daily, d, g) && DayOf(a, d, g) == DayOf(b, d, g);
    }
  }

  lemma LandStamped(setup: Setup, s: State, row: Row, s': State, d: int, t: int)
    requires Stored(s) && Next(setup, s, Land(row), s')
    ensures StampedAfter(s, d, t) ==> StampedAfter(s', d, t)
    ensures d == Day(row.key.minute) && row.computedAt > t ==> StampedAfter(s', d, t)
  {
    assert row in Rows(s') by {
      assert s'.live != s.live ==> s'.live[row.key] == row;
    }
    if StampedAfter(s, d, t) {
      var r :| r in Rows(s) && Day(r.key.minute) == d && r.computedAt > t;
      if r !in s.superseded {
        var j :| j in s.live && s.live[j] == r;
        assert j != row.key ==> s'.live[j] == r;
      }
      assert r in Rows(s');
    }
  }

  lemma LandSame(setup: Setup, s: State, row: Row, s': State, d: int)
    requires Next(setup, s, Land(row), s') && d != Day(row.key.minute)
    ensures SameDay(s.live, s'.live, d)
  {
    forall g ensures DayOf(s'.live, d, g) == DayOf(s.live, d, g) {
      LandElsewhere(s.live, row, d, g);
    }
  }

  lemma LandStored(setup: Setup, s: State, row: Row, s': State)
    requires Inv(setup, s) && Next(setup, s, Land(row), s')
    ensures Stored(s') && Flying(setup, s')
    ensures s'.daily == s.daily && s'.now == s.now && s'.refresh == s.refresh
    ensures forall k :: k in s.live ==> k in s'.live
    ensures row.computedAt > LastWrite(s.daily) - OVERLAP && s.now <= row.computedAt + setup.lag
    ensures s'.live == s.live || s'.live == s.live[row.key := row]
  {
  }

  lemma LandStep(setup: Setup, s: State, row: Row, s': State)
    requires Timely(setup) && Inv(setup, s) && Next(setup, s, Land(row), s')
    ensures Inv(setup, s')
  {
    hide Stored, Flying, LastWrite, Rows, DayOf, Day, StampedAfter, SameDay, Exact;
    var source := if s.refresh.Some? then s.refresh.value.source else map[];
    LandStored(setup, s, row, s');
    forall d, t
      ensures StampedAfter(s, d, t) ==> StampedAfter(s', d, t)
      ensures d == Day(row.key.minute) && row.computedAt > t ==> StampedAfter(s', d, t)
    {
      LandStamped(setup, s, row, s', d, t);
    }
    forall d | d != Day(row.key.minute)
      ensures Exact(setup, s.live, s.daily, d) ==> Exact(setup, s'.live, s'.daily, d)
      ensures SameDay(source, s.live, d) ==> SameDay(source, s'.live, d)
    {
      LandSame(setup, s, row, s', d);
      if Exact(setup, s.live, s.daily, d) {
        ExactAgain(setup, s.live, s'.live, s.daily, d);
      }
      if SameDay(source, s.live, d) {
        SameDayTrans(source, s.live, s'.live, d);
      }
    }
    forall k | k in s'.daily && InWindow(s', k.day)
      ensures DayOf(s'.live, k.day, k.scope) != map[]
    {
      LandKeeps(s.live, row, k.day, k.scope);
    }
    assert Covered(setup, s');
    if s.refresh.Some? {
      assert Running(setup, s', s.refresh.value);
    }
  }

  lemma SameDayTrans(a: map<Key, Row>, b: map<Key, Row>, c: map<Key, Row>, d: int)
    requires SameDay(a, b, d) && SameDay(b, c, d)
    ensures SameDay(a, c, d)
  {
  }

  lemma LandElsewhere(live: map<Key, Row>, row: Row, d: int, g: Scope)
    requires d != Day(row.key.minute)
    ensures DayOf(live[row.key := row], d, g) == DayOf(live, d, g)
  {
    var a, b := DayOf(live, d, g), DayOf(live[row.key := row], d, g);
    forall m ensures m in a <==> m in b {
      assert m in a <==> Key(g, m) in live && Day(m) == d by { DayOfMember(live, d, g, m); }
      assert m in b <==> Key(g, m) in live && Day(m) == d by { DayOfMember(live[row.key := row], d, g, m); }
    }
  }

  lemma DayOfMember(live: map<Key, Row>, d: int, g: Scope, m: int)
    ensures m in DayOf(live, d, g) <==> Key(g, m) in live && Day(m) == d
  {
    if Key(g, m) in live && Day(m) == d {
      assert Key(g, m).minute == m;
    }
  }

  lemma LandKeeps(live: map<Key, Row>, row: Row, d: int, g: Scope)
    requires DayOf(live, d, g) != map[]
    ensures DayOf(live[row.key := row], d, g) != map[]
  {
    var m :| m in DayOf(live, d, g);
    DayOfMember(live, d, g, m);
    DayOfMember(live[row.key := row], d, g, m);
  }

  lemma ExpireKeeps(setup: Setup, s: State, day: int, s': State, d: int)
    requires Stored(s) && Next(setup, s, Expire(day), s') && d != day
    ensures SameDay(s.live, s'.live, d)
    ensures forall t :: StampedAfter(s, d, t) ==> StampedAfter(s', d, t)
  {
    forall g ensures DayOf(s.live, d, g) == DayOf(s'.live, d, g) {
      forall m ensures m in DayOf(s.live, d, g) <==> m in DayOf(s'.live, d, g) {
        DayOfMember(s.live, d, g, m);
        DayOfMember(s'.live, d, g, m);
      }
    }
    forall t | StampedAfter(s, d, t)
      ensures StampedAfter(s', d, t)
    {
      var r :| r in Rows(s) && Day(r.key.minute) == d && r.computedAt > t;
      if r !in s.superseded {
        var j :| j in s.live && s.live[j] == r;
        assert s'.live[j] == r;
      }
      assert r in Rows(s');
    }
  }

  lemma ExpireStored(setup: Setup, s: State, day: int, s': State)
    requires Inv(setup, s) && Next(setup, s, Expire(day), s')
    ensures Stored(s') && Flying(setup, s') && !InWindow(s, day)
    ensures s'.daily == s.daily && s'.now == s.now && s'.refresh == s.refresh
    ensures forall k :: k in s.live && InWindow(s, Day(k.minute)) ==> k in s'.live
  {
  }

  lemma ExpireCovers(setup: Setup, s: State, day: int, s': State, source: map<Key, Row>)
    requires Stored(s) && Covered(setup, s) && Next(setup, s, Expire(day), s') && !InWindow(s, day)
    requires s'.daily == s.daily && s'.now == s.now
    ensures Covered(setup, s')
  {
    hide Stored, Next, LastWrite, Rows, DayOf, Day, StampedAfter, SameDay, Exact;
    forall d | InWindow(s', d)
      ensures Exact(setup, s'.live, s'.daily, d) || StampedAfter(s', d, LastWrite(s'.daily) - OVERLAP)
    {
      ExpireDay(setup, s, day, s', d, source);
    }
    forall k | k in s'.daily && InWindow(s', k.day)
      ensures DayOf(s'.live, k.day, k.scope) != map[]
    {
      ExpireDay(setup, s, day, s', k.day, source);
    }
  }

  lemma ExpireRuns(setup: Setup, s: State, day: int, s': State, f: Refresh)
    requires Stored(s) && Running(setup, s, f) && Next(setup, s, Expire(day), s') && !InWindow(s, day)
    requires s'.daily == s.daily && s'.now == s.now
    requires forall k :: k in s.live && InWindow(s, Day(k.minute)) ==> k in s'.live
    ensures Running(setup, s', f)
  {
    hide Stored, Next, LastWrite, Rows, DayOf, Day, StampedAfter, SameDay, Exact;
    forall d | InWindow(s', d)
      ensures SameDay(f.source, s'.live, d) || StampedAfter(s', d, f.start - setup.lag - 1)
    {
      ExpireDay(setup, s, day, s', d, f.source);
    }
  }

  lemma ExpireStep(setup: Setup, s: State, day: int, s': State)
    requires Timely(setup) && Inv(setup, s) && Next(setup, s, Expire(day), s')
    ensures Inv(setup, s')
  {
    ExpireStored(setup, s, day, s');
    hide Stored, Flying, Covered, Running, Next, InWindow, Day;
    ExpireCovers(setup, s, day, s', map[]);
    if s.refresh.Some? {
      ExpireRuns(setup, s, day, s', s.refresh.value);
    }
  }

  // Nothing about a day of the window depends on a day that has expired.
  lemma ExpireDay(setup: Setup, s: State, day: int, s': State, d: int, source: map<Key, Row>)
    requires Stored(s) && Next(setup, s, Expire(day), s') && InWindow(s, d) && !InWindow(s, day)
    ensures Exact(setup, s.live, s.daily, d) ==> Exact(setup, s'.live, s'.daily, d)
    ensures SameDay(source, s.live, d) ==> SameDay(source, s'.live, d)
    ensures forall t :: StampedAfter(s, d, t) ==> StampedAfter(s', d, t)
    ensures forall g :: DayOf(s'.live, d, g) == DayOf(s.live, d, g)
  {
    ExpireKeeps(setup, s, day, s', d);
    SameDayMeans(s.live, s'.live, d);
    if Exact(setup, s.live, s.daily, d) {
      ExactAgain(setup, s.live, s'.live, s.daily, d);
    }
    if SameDay(source, s.live, d) {
      SameDayTrans(source, s.live, s'.live, d);
    }
  }

  lemma SameDayMeans(a: map<Key, Row>, b: map<Key, Row>, d: int)
    requires SameDay(a, b, d)
    ensures forall g :: DayOf(a, d, g) == DayOf(b, d, g)
  {
  }

  lemma BeginStep(setup: Setup, s: State, s': State)
    requires Timely(setup) && Inv(setup, s) && Next(setup, s, Begin, s')
    ensures Inv(setup, s')
  {
    assert Rows(s') == Rows(s);
    forall d, t | StampedAfter(s, d, t) ensures StampedAfter(s', d, t) {}
    var f := s'.refresh.value;
    forall d | Day(f.start) - WINDOW_DAYS <= d < f.from
      ensures Exact(setup, f.source, s.daily, d)
    {
      UnchangedBeforeFrom(s, d);
    }
  }

  // The view starts no later than any day a row of the window was stamped for since the last write.
  lemma UnchangedBeforeFrom(s: State, d: int)
    requires Day(s.now) - WINDOW_DAYS <= d < From(s)
    ensures !StampedAfter(s, d, LastWrite(s.daily) - OVERLAP)
  {
    assert d !in ChangedDays(s);
    forall r | r in Rows(s) && Day(r.key.minute) == d
      ensures r.computedAt <= LastWrite(s.daily) - OVERLAP
    {
      hide From, LastWrite, Rows;
      DayMono(r.key.minute, r.key.minute);
    }
  }

  // After a refresh the newest rows of its window are the aggregates of what it read.
  lemma FinishExact(setup: Setup, s: State, s': State, d: int)
    requires Inv(setup, s) && Next(setup, s, Finish, s')
    requires Day(s.refresh.value.start) - WINDOW_DAYS <= d <= Day(s.refresh.value.start)
    ensures Exact(setup, s.refresh.value.source, s'.daily, d)
  {
    var f := s.refresh.value;
    assert d < f.from ==> Exact(setup, f.source, s.daily, d);
    forall g
      ensures ExactFor(setup, f.source, s'.daily, d, g)
    {
      WrittenKeys(setup, f, s.now, d, g);
      if d < f.from {
        assert ExactFor(setup, f.source, s.daily, d, g);
      } else if DayOf(f.source, d, g) == map[] {
        assert DayKey(d, g) !in s.daily;
      }
    }
  }

  lemma WrittenKeys(setup: Setup, f: Refresh, now: int, d: int, g: Scope)
    ensures DayKey(d, g) in Written(setup, f, now) <==> f.from <= d <= Day(f.start) && DayOf(f.source, d, g) != map[]
  {
    var w := Written(setup, f, now);
    if DayKey(d, g) in w {
      var k :| k in f.source && Day(k.minute) == d && k.scope == g;
      DayOfMember(f.source, d, g, k.minute);
    }
    if f.from <= d <= Day(f.start) && DayOf(f.source, d, g) != map[] {
      var m :| m in DayOf(f.source, d, g);
      DayOfMember(f.source, d, g, m);
      assert Key(g, m).minute == m;
    }
  }

  lemma DayAhead(f: Refresh, d: int, g: Scope)
    requires d > Day(f.start) && forall k :: k in f.source ==> k.minute <= f.start
    ensures DayOf(f.source, d, g) == map[]
  {
    forall m ensures m !in DayOf(f.source, d, g) {
      DayOfMember(f.source, d, g, m);
      if Key(g, m) in f.source {
        DayMono(Key(g, m).minute, f.start);
      }
    }
  }

  lemma LastWriteAfter(setup: Setup, s: State, s': State)
    requires Inv(setup, s) && Next(setup, s, Finish, s')
    ensures LastWrite(s.daily) <= LastWrite(s'.daily) <= s.now
    ensures Written(setup, s.refresh.value, s.now) == map[] ==> s'.daily == s.daily
  {
    var w := Written(setup, s.refresh.value, s.now);
    if w == map[] {
    } else {
      var k :| k in w;
      assert s'.daily[k].computedAt == s.now;
      var j :| j in s'.daily && s'.daily[j].computedAt == LastWrite(s'.daily);
      assert j in w || s'.daily[j] == s.daily[j];
    }
  }

  lemma FinishDay(setup: Setup, s: State, s': State, d: int)
    requires Timely(setup) && Inv(setup, s) && Next(setup, s, Finish, s') && InWindow(s, d)
    requires SameDay(s.refresh.value.source, s.live, d)
    ensures Exact(setup, s'.live, s'.daily, d)
  {
    var f := s.refresh.value;
    DayMono(f.start, s.now);
    if d <= Day(f.start) {
      FinishExact(setup, s, s', d);
    } else {
      forall g ensures ExactFor(setup, f.source, s'.daily, d, g) {
        assert DayOf(s.live, d, g) == DayOf(f.source, d, g);
        DayAhead(f, d, g);
        WrittenKeys(setup, f, s.now, d, g);
        assert DayKey(d, g) !in s.daily;
      }
    }
    ExactAgain(setup, f.source, s.live, s'.daily, d);
  }

  lemma FinishHeld(setup: Setup, s: State, s': State, k: DayKey)
    requires Timely(setup) && Inv(setup, s) && Next(setup, s, Finish, s') && k in s'.daily && InWindow(s, k.day)
    ensures DayOf(s'.live, k.day, k.scope) != map[]
  {
    var f := s.refresh.value;
    if k !in s.daily {
      WrittenKeys(setup, f, s.now, k.day, k.scope);
      assert k == DayKey(k.day, k.scope);
      var m :| m in DayOf(f.source, k.day, k.scope);
      DayOfMember(f.source, k.day, k.scope, m);
      DayOfMember(s.live, k.day, k.scope, m);
    }
  }

  lemma FinishCovers(setup: Setup, s: State, s': State, d: int)
    requires Timely(setup) && Inv(setup, s) && Next(setup, s, Finish, s') && InWindow(s, d)
    ensures Exact(setup, s'.live, s'.daily, d) || StampedAfter(s', d, LastWrite(s'.daily) - OVERLAP)
  {
    var f := s.refresh.value;
    LastWriteAfter(setup, s, s');
    assert Rows(s') == Rows(s) && LastWrite(s'.daily) <= s.now <= f.start + setup.span;
    if SameDay(f.source, s.live, d) {
      FinishDay(setup, s, s', d);
    } else {
      assert StampedAfter(s, d, f.start - setup.lag - 1);
      hide *;
      StampedEarlier(s, s', d, f.start - setup.lag - 1, LastWrite(s'.daily) - OVERLAP);
    }
  }

  lemma StampedEarlier(s: State, s': State, d: int, t: int, u: int)
    requires Rows(s') == Rows(s) && StampedAfter(s, d, t) && u <= t
    ensures StampedAfter(s', d, u)
  {
    hide Rows, Day;
    var r :| r in Rows(s) && Day(r.key.minute) == d && r.computedAt > t;
    assert r in Rows(s');
  }

  lemma FinishFrame(setup: Setup, s: State, s': State)
    requires Timely(setup) && Inv(setup, s) && Next(setup, s, Finish, s')
    ensures Stored(s') && Flying(setup, s') && LastWrite(s'.daily) <= s'.now == s.now && s'.refresh.None?
  {
    LastWriteAfter(setup, s, s');
    assert s' == s.(refresh := None, daily := s'.daily);
    hide Next, Written, LastWrite, Running, Covered;
  }

  lemma FinishStep(setup: Setup, s: State, s': State)
    requires Timely(setup) && Inv(setup, s) && Next(setup, s, Finish, s')
    ensures Inv(setup, s')
  {
    FinishFrame(setup, s, s');
    forall d | InWindow(s', d)
      ensures Exact(setup, s'.live, s'.daily, d) || StampedAfter(s', d, LastWrite(s'.daily) - OVERLAP)
    {
      FinishCovers(setup, s, s', d);
    }
    forall k | k in s'.daily && InWindow(s', k.day)
      ensures DayOf(s'.live, k.day, k.scope) != map[]
    {
      FinishHeld(setup, s, s', k);
    }
    hide LastWrite, DayOf, Day, Exact, Rows, StampedAfter, Written, Stored, Flying, Running;
  }

  lemma StepInv(setup: Setup, s: State, e: Event, s': State)
    requires Timely(setup) && Inv(setup, s) && Next(setup, s, e, s')
    ensures Inv(setup, s')
  {
    hide Inv, Next, Timely;
    match e
    case Stamp(row) => StampStep(setup, s, row, s');
    case Land(row) => LandStep(setup, s, row, s');
    case Tick(now) => TickStep(setup, s, now, s');
    case Merge(row) => MergeStep(setup, s, row, s');
    case Expire(day) => ExpireStep(setup, s, day, s');
    case Begin => BeginStep(setup, s, s');
    case Finish => FinishStep(setup, s, s');
  }

  lemma {:induction false} RunInv(setup: Setup, states: seq<State>, events: seq<Event>, i: nat)
    requires Timely(setup) && IsRun(setup, states, events) && i < |states|
    ensures Inv(setup, states[i])
  {
    if i == 0 {
      InitInv(setup, states[0]);
    } else {
      RunInv(setup, states, events, i - 1);
      StepInv(setup, states[i - 1], events[i - 1], states[i]);
    }
  }

  // Every refresh of every run leaves each day from five back to today exactly at the aggregate of the
  // minutes it read, although it recomputed only the days its window reached.
  lemma RefreshIsFullRecompute(setup: Setup, states: seq<State>, events: seq<Event>, i: nat, d: int)
    requires Timely(setup) && IsRun(setup, states, events) && i < |events| && events[i] == Finish
    ensures states[i].refresh.Some?
    ensures var f := states[i].refresh.value;
            Day(f.start) - WINDOW_DAYS <= d <= Day(f.start) ==> Exact(setup, f.source, states[i + 1].daily, d)
  {
    RunInv(setup, states, events, i);
    assert Next(setup, states[i], events[i], states[i + 1]);
    var f := states[i].refresh.value;
    if Day(f.start) - WINDOW_DAYS <= d <= Day(f.start) {
      FinishExact(setup, states[i], states[i + 1], d);
    }
  }

  // Between refreshes, a day of the window that is not exact holds a row the next refresh counts as new.
  lemma StaleDayIsPending(setup: Setup, states: seq<State>, events: seq<Event>, i: nat, d: int)
    requires Timely(setup) && IsRun(setup, states, events) && i < |states|
    requires InWindow(states[i], d) && !Exact(setup, states[i].live, states[i].daily, d)
    ensures From(states[i]) <= d
  {
    RunInv(setup, states, events, i);
    if d < From(states[i]) {
      UnchangedBeforeFrom(states[i], d);
    }
  }

  // The `i`th event ends a refresh that read and wrote on one day while no minute landed, and `d` is a day of
  // its window.
  ghost predicate QuietFinish(setup: Setup, states: seq<State>, events: seq<Event>, i: int, d: int) {
    && IsRun(setup, states, events) && 0 <= i < |events| && events[i] == Finish
    && states[i].refresh.Some? && states[i].refresh.value.source == states[i].live
    && Day(states[i].refresh.value.start) == Day(states[i].now)
    && Day(states[i].now) - WINDOW_DAYS <= d <= Day(states[i].now)
  }

  // A refresh that reads and writes while no minute lands leaves the window exact for what is stored.
  lemma QuietRefreshIsExact(setup: Setup, states: seq<State>, events: seq<Event>, i: int, d: int)
    requires Timely(setup) && QuietFinish(setup, states, events, i, d)
    ensures Exact(setup, states[i + 1].live, states[i + 1].daily, d)
  {
    assert Next(setup, states[i], events[i], states[i + 1]);
    RefreshIsFullRecompute(setup, states, events, i, d);
  }

  // Every such refresh of every run leaves the window exact.
  ghost predicate Reliable(setup: Setup) {
    forall states: seq<State>, events, i, d ::
      QuietFinish(setup, states, events, i, d) ==> Exact(setup, states[i + 1].live, states[i + 1].daily, d)
  }

  // The ten minutes are exact: the window can be relied on if and only if the delay of a row and the length of
  // a refresh stay under them together.
  lemma TimelyIsReliable(setup: Setup)
    requires 0 <= setup.lag && 0 <= setup.span
    ensures Timely(setup) <==> Reliable(setup)
  {
    hide QuietFinish, Exact;
    if Timely(setup) {
      forall states: seq<State>, events, i, d | QuietFinish(setup, states, events, i, d)
        ensures 0 <= i + 1 < |states| && Exact(setup, states[i + 1].live, states[i + 1].daily, d)
      {
        QuietFinishIs(setup, states, events, i, d);
        QuietRefreshIsExact(setup, states, events, i, d);
      }
    } else {
      var states, events, d := TenMinutesIsTooLate(setup);
      QuietFinishIs(setup, states, events, |events| - 1, d);
      assert states[|events| - 1 + 1] == states[|states| - 1];
    }
  }

  lemma QuietFinishIs(setup: Setup, states: seq<State>, events: seq<Event>, i: int, d: int)
    requires QuietFinish(setup, states, events, i, d)
    ensures 0 <= i < |events| && |states| == |events| + 1
  {
  }

  // From there on a row that becomes visible while a refresh runs can be missed by all that follow.
  lemma TenMinutesIsTooLate(setup: Setup) returns (states: seq<State>, events: seq<Event>, d: int)
    requires 0 <= setup.lag && 0 <= setup.span && setup.lag + setup.span >= OVERLAP
    ensures |events| > 0 && |states| == |events| + 1 && QuietFinish(setup, states, events, |events| - 1, d)
    ensures var last := states[|states| - 1]; !Exact(setup, last.live, last.daily, d)
  {
    LateOnTheTenth();
    hide *;
    var x := if setup.lag < OVERLAP then setup.lag else OVERLAP;
    var a, b;
    states, events, a, b := FirstRefresh(setup, x);
    d := 6;
    var s1 := states[|states| - 1];
    assert Day(s1.now) == 10;
    var f := Refresh(s1.now, From(s1), s1.live);
    var s2, s3 := s1.(refresh := Some(f)), s1.(daily := s1.daily + Written(setup, f, s1.now));
    CanBegin(setup, s1);
    CanFinish(setup, s2);
    SecondRefreshMisses(setup, s1, b, f);
    states, events := Longer(setup, states, events, Begin, s2);
    states, events := Longer(setup, states, events, Finish, s3);
    EndsQuietly(setup, states, events, d);
  }

  lemma LateOnTheTenth()
    ensures Day(10 * DAY + OVERLAP) == 10 && OVERLAP > 0
  {
  }

  // One more step of a run.
  lemma Longer(setup: Setup, states: seq<State>, events: seq<Event>, e: Event, s: State)
    returns (ss: seq<State>, es: seq<Event>)
    requires IsRun(setup, states, events) && |states| == |events| + 1 && Next(setup, states[|states| - 1], e, s)
    ensures IsRun(setup, ss, es) && |ss| == |es| + 1 == |states| + 1
    ensures ss[|ss| - 1] == s && ss[|ss| - 2] == states[|states| - 1] && es[|es| - 1] == e
  {
    hide *;
    ss, es := states + [s], events + [e];
    Extend(setup, states, events, e, s);
  }

  lemma CanBegin(setup: Setup, s: State)
    requires s.refresh.None?
    ensures Next(setup, s, Begin, s.(refresh := Some(Refresh(s.now, From(s), s.live))))
  {
    hide From;
  }

  lemma CanFinish(setup: Setup, s: State)
    requires s.refresh.Some?
    ensures Next(setup, s, Finish, s.(refresh := None, daily := s.daily + Written(setup, s.refresh.value, s.now)))
  {
    hide Written;
  }

  lemma CanTick(setup: Setup, s: State, now: int)
    requires s.now < now && (forall r :: r in s.inFlight ==> now <= r.computedAt + setup.lag)
    requires s.refresh.Some? ==> now <= s.refresh.value.start + setup.span
    ensures Next(setup, s, Tick(now), s.(now := now))
  {
  }

  lemma EndsQuietly(setup: Setup, states: seq<State>, events: seq<Event>, d: int)
    requires IsRun(setup, states, events) && |events| > 0 && |states| == |events| + 1 && events[|events| - 1] == Finish
    requires var s := states[|events| - 1];
             s.refresh.Some? && s.refresh.value.source == s.live && Day(s.refresh.value.start) == Day(s.now)
             && Day(s.now) - 5 <= d <= Day(s.now)
    ensures QuietFinish(setup, states, events, |events| - 1, d)
  {
    hide IsRun, Day;
  }

  lemma SecondRefreshMisses(setup: Setup, s: State, b: Row, f: Refresh)
    requires s.now == 10 * DAY + OVERLAP && Day(b.key.minute) == 6 && s.superseded == {}
    requires b.key in s.live && DayKey(6, b.key.scope) !in s.daily
    requires LastWrite(s.daily) == s.now && forall k :: k in s.live ==> s.live[k].computedAt == 10 * DAY
    requires f == Refresh(s.now, From(s), s.live)
    ensures var s3 := s.(daily := s.daily + Written(setup, f, s.now)); !Exact(setup, s3.live, s3.daily, 6)
  {
    var g := b.key.scope;
    assert f.from == 8 by {
      assert ChangedDays(s) == {};
    }
    DayOfMember(s.live, 6, g, b.key.minute);
    assert b.key == Key(g, b.key.minute);
    var minutes := DayOf(s.live, 6, g);
    assert b.key.minute in minutes;
    assert DayKey(6, g) !in Written(setup, f, s.now) by { WrittenKeys(setup, f, s.now, 6, g); }
    var s3 := s.(daily := s.daily + Written(setup, f, s.now));
    hide Written, From, LastWrite, DayOf;
    assert !ExactFor(setup, s3.live, s3.daily, 6, g);
  }

  lemma CanLand(setup: Setup, s: State, row: Row)
    requires row in s.inFlight && row.key !in s.live
    ensures Next(setup, s, Land(row), s.(inFlight := s.inFlight - {row}, live := s.live[row.key := row]))
    ensures s.inFlight == {row} ==> s.inFlight - {row} == {}
  {
    assert s.superseded + {} == s.superseded;
  }

  lemma Extend(setup: Setup, states: seq<State>, events: seq<Event>, e: Event, s: State)
    requires IsRun(setup, states, events) && Next(setup, states[|states| - 1], e, s)
    ensures IsRun(setup, states + [s], events + [e])
  {
    hide Next, Init;
  }

  // Two rows are stamped together, one of today and one of a day in the window that is never recomputed
  // unasked. The second becomes visible while a refresh runs that ends ten minutes after the stamp.
  lemma FirstRefresh(setup: Setup, x: int) returns (states: seq<State>, events: seq<Event>, a: Row, b: Row)
    requires 0 <= x <= setup.lag && (x == OVERLAP || (x < OVERLAP && x + setup.span >= OVERLAP))
    ensures a.computedAt == b.computedAt == 10 * DAY && Day(b.key.minute) == 6 && b.key != a.key
    ensures IsRun(setup, states, events) && |states| == |events| + 1
    ensures var s := states[|states| - 1];
            && s == State(10 * DAY + OVERLAP, map[a.key := a][b.key := b], {}, {}, s.daily, None)
            && LastWrite(s.daily) == s.now && DayKey(6, b.key.scope) !in s.daily
  {
    assert Day(10 * DAY) == Day(10 * DAY + x) == 10 && Day(6 * DAY) == 6;
    hide *;
    var late := 10 * DAY + OVERLAP;
    states, events, a, b := OneLandedOneNot(setup, x);
    var s := states[|states| - 1];
    var f := Refresh(s.now, From(s), s.live);
    var w := Written(setup, f, late);
    var s5 := s.(refresh := Some(f));
    var s6 := s5.(live := s.live[b.key := b], inFlight := s5.inFlight - {b});
    var s7 := s6.(now := late);
    FromBounds(s);
    WrittenOnlyToday(setup, f, b.key.scope, late);
    assert map[] + w == w;
    CanBegin(setup, s);
    CanLand(setup, s5, b);
    CanFinish(setup, s7);
    states, events := Longer(setup, states, events, Begin, s5);
    states, events := Longer(setup, states, events, Land(b), s6);
    if x != OVERLAP {
      CanTick(setup, s6, late);
      states, events := Longer(setup, states, events, Tick(late), s7);
    }
    states, events := Longer(setup, states, events, Finish, s7.(refresh := None, daily := s7.daily + w));
  }

  lemma OneLandedOneNot(setup: Setup, x: int) returns (states: seq<State>, events: seq<Event>, a: Row, b: Row)
    requires 0 <= x <= setup.lag && x <= OVERLAP
    ensures a.computedAt == b.computedAt == 10 * DAY
    ensures a.key == Key(b.key.scope, 10 * DAY) && b.key == Key(b.key.scope, 6 * DAY)
    ensures IsRun(setup, states, events) && |states| == |events| + 1
    ensures states[|states| - 1] == State(10 * DAY + x, map[a.key := a], {}, {b}, map[], None)
  {
    var g, t := Scope("", ""), 10 * DAY;
    a, b := Row(Key(g, t), 0.0, t), Row(Key(g, 6 * DAY), 0.0, t);
    var live := map[][a.key := a];
    var s0 := State(t, map[], {}, {}, map[], None);
    var s1, s2, s3 := s0.(inFlight := {a}), s0.(live := live), s0.(live := live, inFlight := {b});
    var s4 := s3.(now := t + x);
    assert Init(s0) && Next(setup, s0, Stamp(a), s1) && Next(setup, s2, Stamp(b), s3) by {
      assert {} + {a} == {a} && {} + {b} == {b};
    }
    assert Next(setup, s1, Land(a), s2) by { CanLand(setup, s1, a); }
    hide *;
    states, events := [s0] + [s1], [] + [Stamp(a)];
    FirstStep(setup, s0, Stamp(a), s1);
    states, events := Longer(setup, states, events, Land(a), s2);
    states, events := Longer(setup, states, events, Stamp(b), s3);
    if x > 0 {
      CanTick(setup, s3, t + x);
      states, events := Longer(setup, states, events, Tick(t + x), s4);
    }
  }

  lemma FromBounds(s: State)
    ensures Day(s.now) - WINDOW_DAYS <= From(s) <= Day(s.now) - 2
  {
    hide ChangedDays;
  }

  lemma FirstStep(setup: Setup, s: State, e: Event, s': State)
    requires Init(s) && Next(setup, s, e, s')
    ensures IsRun(setup, [s] + [s'], [] + [e])
  {
  }

  lemma WrittenOnlyToday(setup: Setup, f: Refresh, g: Scope, late: int)
    requires Day(f.start) == 10 && f.from <= 10
    requires f.source.Keys == {Key(g, 10 * DAY)}
    ensures LastWrite(Written(setup, f, late)) == late
    ensures DayKey(6, g) !in Written(setup, f, late)
  {
    var w, t := Written(setup, f, late), 10 * DAY;
    DayOfMember(f.source, 10, g, t);
    WrittenKeys(setup, f, late, 10, g);
    WrittenKeys(setup, f, late, 6, g);
    forall m ensures m !in DayOf(f.source, 6, g) {
      DayOfMember(f.source, 6, g, m);
    }
    assert w[DayKey(10, g)].computedAt == late;
  }
}

/** Historical concurrency: overlapping run intervals merged by session, and the peak of each bucket. */
module Concurrency {
  import opened Arithmetic
  import opened Sorting

  /** A completed assistant interval of a session. */
  datatype Run = Run(session: string, start: int, end: int)

  datatype Edge = Edge(at: int, delta: int)

  datatype Point = Point(timestamp: int, sessions: int)

  // ---- what concurrency means ----

  predicate Covers(r: Run, since: int, until: int, t: int) { Max(r.start, since) <= t < Min(r.end, until) }

  /** The sessions running at an instant of the requested range. */
  function Running(rows: seq<Run>, since: int, until: int, t: int): set<string> {
    set r | r in rows && Covers(r, since, until, t) :: r.session
  }

  /** The deltas of the edges at or before an instant. */
  function Active(edges: seq<Edge>, t: int): int {
    if edges == [] then 0
    else Active(edges[..|edges| - 1], t) + if edges[|edges| - 1].at <= t then edges[|edges| - 1].delta else 0
  }

  /** `p` is the largest number active at an instant of [lo, hi). */
  ghost predicate IsPeak(edges: seq<Edge>, lo: int, hi: int, p: int) {
    && (forall t :: lo <= t < hi ==> Active(edges, t) <= p)
    && exists t :: lo <= t < hi && Active(edges, t) == p
  }

  // ---- merging ----

  /** Rows come by session, then by start; a run starts after the epoch. */
  ghost predicate Ordered(rows: seq<Run>) {
    && (forall i :: 0 <= i < |rows| ==> rows[i].start > 0)
    && (forall i, j :: 0 <= i < j < |rows| && rows[i].session == rows[j].session ==> rows[i].start <= rows[j].start)
    && (forall i, j, k :: 0 <= i < j < k < |rows| && rows[i].session == rows[k].session ==> rows[j].session == rows[i].session)
  }

  function Flush(edges: seq<Edge>, from: int, to: int): seq<Edge> {
    if to > from then edges + [Edge(from, 1), Edge(to, -1)] else edges
  }

  /** An end has its start before it. */
  ghost predicate Paired(edges: seq<Edge>) {
    forall e :: e in edges ==> e.delta == 1 || exists x :: x in edges && x.delta == 1 && x.at < e.at
  }

  lemma NonePaired()
    ensures Paired([])
  {
  }

  lemma FlushWithin(edges: seq<Edge>, from: int, to: int, since: int, until: int)
    requires (forall e :: e in edges ==> since <= e.at <= until) && (to > from ==> since <= from && to <= until)
    ensures forall e :: e in Flush(edges, from, to) ==> since <= e.at <= until
  {
  }

  lemma FlushPaired(edges: seq<Edge>, from: int, to: int)
    requires Paired(edges)
    ensures Paired(Flush(edges, from, to))
  {
    var r := Flush(edges, from, to);
    if to > from {
      assert Edge(from, 1) in r;
      forall e | e in r
        ensures e.delta == 1 || exists x :: x in r && x.delta == 1 && x.at < e.at
      {
        if e in edges && e.delta != 1 {
          var x :| x in edges && x.delta == 1 && x.at < e.at;
          assert x in r;
        }
      }
    }
  }

  lemma FlushActive(edges: seq<Edge>, from: int, to: int, t: int)
    ensures Active(Flush(edges, from, to), t) == Active(edges, t) + if from <= t < to then 1 else 0
  {
    if to > from {
      var a, b := edges + [Edge(from, 1)], Flush(edges, from, to);
      assert a[..|a| - 1] == edges && b[..|b| - 1] == a;
    }
  }

  lemma RunningNext(rows: seq<Run>, i: nat, since: int, until: int, t: int)
    requires i < |rows|
    ensures Running(rows[..i + 1], since, until, t)
         == Running(rows[..i], since, until, t) + if Covers(rows[i], since, until, t) then {rows[i].session} else {}
  {
    assert rows[..i + 1] == rows[..i] + [rows[i]];
  }

  /** The pending interval of a session covers what its rows cover from its start on. */
  ghost predicate Pending(rows: seq<Run>, i: nat, since: int, until: int, session: string, from: int, to: int)
    requires i <= |rows|
  {
    if i == 0 then from == 0 && to == 0
    else
      && session == rows[i - 1].session && from <= Max(rows[i - 1].start, since)
      && forall t :: from <= t ==> RunsUntil(rows, i, since, until, session, to, t)
  }

  ghost predicate RunsUntil(rows: seq<Run>, i: nat, since: int, until: int, session: string, to: int, t: int)
    requires i <= |rows|
  {
    session in Running(rows[..i], since, until, t) <==> t < to
  }

  ghost predicate Counted(rows: seq<Run>, i: nat, since: int, until: int, edges: seq<Edge>, from: int, to: int)
    requires i <= |rows|
  {
    forall t :: Active(edges, t) + (if from <= t < to then 1 else 0) == |Running(rows[..i], since, until, t)|
  }

  lemma PendingExtends(rows: seq<Run>, i: nat, since: int, until: int, session: string, from: int, to: int)
    requires Ordered(rows) && i < |rows| && Pending(rows, i, since, until, session, from, to)
    requires rows[i].session == session && Max(rows[i].start, since) <= to
    ensures Pending(rows, i + 1, since, until, session, from, Max(to, Min(rows[i].end, until)))
  {
    hide Running;
    var n, start, end := i + 1, Max(rows[i].start, since), Min(rows[i].end, until);
    if i > 0 {
      assert rows[i - 1].start <= rows[i].start;
      forall t | from <= t
        ensures RunsUntil(rows, n, since, until, session, Max(to, end), t)
      {
        RunningNext(rows, i, since, until, t);
        assert RunsUntil(rows, i, since, until, session, to, t);
      }
    }
  }

  lemma PendingStarts(rows: seq<Run>, i: nat, since: int, until: int, session: string, from: int, to: int)
    requires Ordered(rows) && i < |rows| && Pending(rows, i, since, until, session, from, to)
    requires rows[i].session != session || Max(rows[i].start, since) > to
    ensures Pending(rows, i + 1, since, until, rows[i].session, Max(rows[i].start, since), Min(rows[i].end, until))
    ensures forall t :: Max(rows[i].start, since) <= t ==> rows[i].session !in Running(rows[..i], since, until, t)
  {
    hide Running;
    var n, s, start, end := i + 1, rows[i].session, Max(rows[i].start, since), Min(rows[i].end, until);
    forall t | start <= t
      ensures s !in Running(rows[..i], since, until, t)
      ensures RunsUntil(rows, n, since, until, s, end, t)
    {
      RunningNext(rows, i, since, until, t);
      if i == 0 || rows[i - 1].session != s {
        NotRunningYet(rows, i, since, until, t);
      } else {
        assert rows[i - 1].start <= rows[i].start;
        assert RunsUntil(rows, i, since, until, session, to, t);
      }
    }
  }

  lemma MergeKeeps(rows: seq<Run>, i: nat, since: int, until: int, edges: seq<Edge>, session: string, from: int, to: int)
    requires Ordered(rows) && i < |rows|
    requires Pending(rows, i, since, until, session, from, to) && Counted(rows, i, since, until, edges, from, to)
    ensures var r := rows[i];
            var start, end := Max(r.start, since), Min(r.end, until);
            if r.session == session && start <= to
            then Pending(rows, i + 1, since, until, session, from, Max(to, end))
                 && Counted(rows, i + 1, since, until, edges, from, Max(to, end))
            else Pending(rows, i + 1, since, until, r.session, start, end)
                 && Counted(rows, i + 1, since, until, Flush(edges, from, to), start, end)
  {
    hide Active, Running, Flush;
    var r := rows[i];
    var start, end := Max(r.start, since), Min(r.end, until);
    var joins := r.session == session && start <= to;
    if joins {
      PendingExtends(rows, i, since, until, session, from, to);
    } else {
      PendingStarts(rows, i, since, until, session, from, to);
    }
    forall t
      ensures if joins
              then Active(edges, t) + (if from <= t < Max(to, end) then 1 else 0) == |Running(rows[..i + 1], since, until, t)|
              else Active(Flush(edges, from, to), t) + (if start <= t < end then 1 else 0) == |Running(rows[..i + 1], since, until, t)|
    {
      FlushActive(edges, from, to, t);
      CountNext(rows, i, since, until, t);
      assert Active(edges, t) + (if from <= t < to then 1 else 0) == |Running(rows[..i], since, until, t)|;
      if joins {
        assert i > 0 && rows[i - 1].start <= rows[i].start;
        assert from <= t ==> RunsUntil(rows, i, since, until, session, to, t);
      }
    }
  }

  /** One more row adds its session where it covers and was not running. */
  lemma CountNext(rows: seq<Run>, i: nat, since: int, until: int, t: int)
    requires i < |rows|
    ensures |Running(rows[..i + 1], since, until, t)|
         == |Running(rows[..i], since, until, t)|
            + if Covers(rows[i], since, until, t) && rows[i].session !in Running(rows[..i], since, until, t) then 1 else 0
  {
    hide Running;
    RunningNext(rows, i, since, until, t);
    var s := Running(rows[..i], since, until, t);
    if rows[i].session in s {
      assert s + {rows[i].session} == s;
    }
  }

  /** A session that has no row yet is not running. */
  lemma NotRunningYet(rows: seq<Run>, i: nat, since: int, until: int, t: int)
    requires Ordered(rows) && i < |rows| && (i == 0 || rows[i - 1].session != rows[i].session)
    ensures rows[i].session !in Running(rows[..i], since, until, t)
  {
    forall j | 0 <= j < i
      ensures rows[j].session != rows[i].session
    {
    }
  }

  /** Overlapping rows of a session count once. */
  method MergeRuns(rows: seq<Run>, since: int, until: int) returns (edges: seq<Edge>)
    requires Ordered(rows)
    ensures forall t :: Active(edges, t) == |Running(rows, since, until, t)|
    ensures Paired(edges) && forall e :: e in edges ==> since <= e.at <= until
  {
    hide Paired, Flush;
    edges := [];
    NonePaired();
    var session, from, to := "", 0, 0;
    for i := 0 to |rows|
      invariant Pending(rows, i, since, until, session, from, to) && Counted(rows, i, since, until, edges, from, to)
      invariant Paired(edges) && forall e :: e in edges ==> since <= e.at <= until
      invariant i > 0 ==> since <= from && to <= until
    {
      var r := rows[i];
      var start, end := Max(r.start, since), Min(r.end, until);
      MergeKeeps(rows, i, since, until, edges, session, from, to);
      if r.session == session && start <= to {
        to := Max(to, end);
      } else {
        FlushPaired(edges, from, to);
        FlushWithin(edges, from, to, since, until);
        edges := Flush(edges, from, to);
        session, from, to := r.session, start, end;
      }
    }
    forall t
      ensures Active(Flush(edges, from, to), t) == |Running(rows, since, until, t)|
    {
      assert rows[..|rows|] == rows;
      FlushActive(edges, from, to, t);
    }
    FlushPaired(edges, from, to);
    FlushWithin(edges, from, to, since, until);
    edges := Flush(edges, from, to);
  }

  // ---- sweeping ----

  function At(e: Edge): int { e.at }

  function Total(edges: seq<Edge>): int {
    if edges == [] then 0 else Total(edges[..|edges| - 1]) + edges[|edges| - 1].delta
  }

  lemma {:induction false} InsertActive(edges: seq<Edge>, e: Edge, t: int)
    ensures Active(Insert(edges, e, At), t) == Active(edges + [e], t)
  {
    assert (edges + [e])[..|edges|] == edges;
    if edges != [] && edges[|edges| - 1].at > e.at {
      var most, last := edges[..|edges| - 1], edges[|edges| - 1];
      InsertActive(most, e, t);
      assert (most + [e])[..|most|] == most;
      var r := Insert(most, e, At);
      assert (r + [last])[..|r|] == r;
    }
  }

  /** What is active does not depend on the order of the edges. */
  lemma {:induction false} SortActive(edges: seq<Edge>, t: int)
    ensures Active(SortBy(edges, At), t) == Active(edges, t)
  {
    if edges != [] {
      var most, last := edges[..|edges| - 1], edges[|edges| - 1];
      SortActive(most, t);
      InsertActive(SortBy(most, At), last, t);
      var s := SortBy(most, At);
      assert (s + [last])[..|s|] == s;
    }
  }

  /** Between two edges everything up to the first of them is active. */
  lemma {:induction false} ActivePrefix(edges: seq<Edge>, i: nat, t: int)
    requires SortedBy(edges, At) && i <= |edges|
    requires (i > 0 ==> edges[i - 1].at <= t) && (i < |edges| ==> t < edges[i].at)
    ensures Active(edges, t) == Total(edges[..i])
  {
    if edges != [] {
      var most := edges[..|edges| - 1];
      if i < |edges| {
        assert At(edges[i]) <= At(edges[|edges| - 1]);
        ActivePrefix(most, i, t);
        assert most[..i] == edges[..i];
      } else {
        assert edges[..i] == edges;
        if |edges| > 1 {
          assert At(most[|most| - 1]) <= At(edges[|edges| - 1]);
        }
        ActivePrefix(most, i - 1, t);
        assert most[..i - 1] == most;
      }
    }
  }

  /** Adds up the edges of one instant. */
  method TakeInstant(edges: seq<Edge>, index: nat, active: int) returns (next: nat, now: int)
    requires SortedBy(edges, At) && index < |edges| && active == Total(edges[..index])
    ensures index < next <= |edges| && now == Total(edges[..next])
    ensures edges[next - 1].at == edges[index].at && (next < |edges| ==> edges[index].at < edges[next].at)
  {
    var at := edges[index].at;
    next, now := index, active;
    while next < |edges| && edges[next].at == at
      invariant index <= next <= |edges| && now == Total(edges[..next])
      invariant next > index ==> edges[next - 1].at == at
    {
      assert edges[..next + 1][..next] == edges[..next];
      now := now + edges[next].delta;
      next := next + 1;
    }
    assert next < |edges| ==> At(edges[index]) <= At(edges[next]);
  }

  /** Between buckets: the edges before `start` have been taken, and no other. */
  ghost predicate Reached(edges: seq<Edge>, index: nat, active: int, start: int) {
    && index <= |edges| && active == Total(edges[..index])
    && (index > 0 ==> edges[index - 1].at < start) && (index < |edges| ==> start <= edges[index].at)
  }

  /** The most that is active at an instant of one bucket; ends at its start belong to the one before. */
  method BucketPeak(edges: seq<Edge>, index0: nat, active0: int, start: int, end: int)
    returns (index: nat, active: int, peak: int)
    requires SortedBy(edges, At) && Reached(edges, index0, active0, start) && start < end
    ensures Reached(edges, index, active, end) && IsPeak(edges, start, end, peak)
  {
    index, active, peak := index0, active0, active0;
    ghost var w := start;
    forall t | start <= t < end && (index < |edges| ==> t < edges[index].at)
      ensures Active(edges, t) == active
    {
      ActivePrefix(edges, index, t);
    }
    while index < |edges| && edges[index].at < end
      invariant index <= |edges| && active == Total(edges[..index])
      invariant index > 0 ==> edges[index - 1].at < end
      invariant index < |edges| ==> start <= edges[index].at && (index > 0 ==> edges[index - 1].at < edges[index].at)
      invariant forall t :: start <= t < end && (index < |edges| ==> t < edges[index].at) ==> Active(edges, t) <= peak
      invariant (index < |edges| && edges[index].at == start) || (start <= w < end && Active(edges, w) == peak)
    {
      var at := edges[index].at;
      ghost var before, was := index, peak;
      index, active := TakeInstant(edges, index, active);
      ActivePrefix(edges, index, at);
      if at == start {
        peak, w := active, at;
      } else {
        peak, w := Max(peak, active), if active > peak then at else w;
      }
      forall t | at <= t < end && (index < |edges| ==> t < edges[index].at)
        ensures Active(edges, t) == active
      {
        ActivePrefix(edges, index, t);
      }
    }
    forall t | start <= t < end && index == index0
      ensures Active(edges, t) == active
    {
      ActivePrefix(edges, index, t);
    }
  }

  /** Point `k` is the true peak of bucket `k`. */
  ghost predicate PeakAt(edges: seq<Edge>, points: seq<Point>, since: int, until: int, width: int, k: nat)
    requires k < |points|
  {
    && points[k].timestamp == since + k * width
    && IsPeak(edges, points[k].timestamp, Min(points[k].timestamp + width, until), points[k].sessions)
  }

  method Buckets(edges: seq<Edge>, since: int, until: int, width: int) returns (points: seq<Point>)
    requires SortedBy(edges, At) && width > 0 && forall e :: e in edges ==> since <= e.at
    ensures forall k :: 0 <= k < |points| ==> PeakAt(edges, points, since, until, width, k)
    ensures since + |points| * width >= until && (points != [] ==> since + (|points| - 1) * width < until)
  {
    points := [];
    var index, active, start := 0, 0, since;
    assert |edges| > 0 ==> edges[0] in edges;
    while start < until
      invariant start == since + |points| * width
      invariant points != [] ==> start - width < until
      invariant start < until ==> Reached(edges, index, active, start)
      invariant forall k :: 0 <= k < |points| ==> PeakAt(edges, points, since, until, width, k)
      decreases until - start
    {
      var end, peak := Min(start + width, until), 0;
      index, active, peak := BucketPeak(edges, index, active, start, end);
      ghost var before := points;
      points := points + [Point(start, peak)];
      start := start + width;
      Grow(|before|, width);
      forall k | 0 <= k < |points|
        ensures PeakAt(edges, points, since, until, width, k)
      {
        if k < |before| {
          assert PeakAt(edges, before, since, until, width, k);
        }
      }
    }
    if points != [] {
      Grow(|points| - 1, width);
    }
  }

  lemma Grow(n: int, width: int)
    ensures (n + 1) * width == n * width + width
  {
  }

  // ---- the whole ----

  /** Hourly buckets, wider for ranges that would need more than 1000. */
  function Width(since: int, until: int): int { Max(HOUR, ((until - since + 1000 * HOUR - 1) / (1000 * HOUR)) * HOUR) }

  lemma WidthBounds(since: int, until: int)
    requires since < until
    ensures Width(since, until) > 0 && Width(since, until) % HOUR == 0 && until - since <= 1000 * Width(since, until)
    ensures Width(since, until) == HOUR || until - since > 1000 * (Width(since, until) - HOUR)
  {
    var d := until - since;
    var q := (d + 1000 * HOUR - 1) / (1000 * HOUR);
    assert d <= q * (1000 * HOUR);
    assert (q * HOUR) % HOUR == 0;
    assert d > (q - 1) * (1000 * HOUR);
  }

  lemma Multiplied(a: int, b: int, width: int)
    requires a <= b && width > 0
    ensures a * width <= b * width
  {
  }

  lemma AtMost(n: nat, width: int, range: int)
    requires width > 0 && n > 0 && (n - 1) * width < range <= 1000 * width
    ensures n <= 1000
  {
    if n > 1000 {
      Multiplied(1000, n - 1, width);
    }
  }

  /** The most sessions running at an instant of [lo, hi). */
  ghost predicate RunningPeak(rows: seq<Run>, since: int, until: int, lo: int, hi: int, p: int) {
    && (forall t :: lo <= t < hi ==> |Running(rows, since, until, t)| <= p)
    && exists t :: lo <= t < hi && |Running(rows, since, until, t)| == p
  }

  /** Bucket `k` starts `k` widths after the base and shows its true peak. */
  ghost predicate Shown(rows: seq<Run>, since: int, until: int, base: int, width: int, points: seq<Point>, k: nat)
    requires k < |points|
  {
    && points[k].timestamp == base + k * width
    && RunningPeak(rows, since, until, points[k].timestamp, Min(points[k].timestamp + width, until), points[k].sessions)
  }

  /** The earliest edge, which an unbounded range starts at. */
  method Earliest(edges: seq<Edge>) returns (at: int)
    requires edges != []
    ensures (exists e :: e in edges && e.at == at) && forall e :: e in edges ==> at <= e.at
  {
    at := edges[0].at;
    for i := 0 to |edges|
      invariant exists e :: e in edges && e.at == at
      invariant forall j :: 0 <= j < i ==> at <= edges[j].at
    {
      at := Min(at, edges[i].at);
    }
  }

  /** At the earliest edge something is active. */
  lemma {:induction false} StartsActive(edges: seq<Edge>, t: int)
    requires forall e :: e in edges && e.at <= t ==> e.delta == 1
    ensures Active(edges, t) >= 0 && ((exists e :: e in edges && e.at <= t) ==> Active(edges, t) > 0)
  {
    if edges != [] {
      var most := edges[..|edges| - 1];
      assert edges[|edges| - 1] in edges && edges == most + [edges[|edges| - 1]];
      StartsActive(most, t);
    }
  }

  lemma StartsRunning(rows: seq<Run>, since: int, until: int, edges: seq<Edge>, t: int)
    requires Paired(edges) && (forall e :: e in edges ==> t <= e.at) && (exists e :: e in edges && e.at == t)
    requires forall u :: Active(edges, u) == |Running(rows, since, until, u)|
    ensures Running(rows, since, until, t) != {}
  {
    hide Running;
    StartsActive(edges, t);
    assert |Running(rows, since, until, t)| > 0;
  }

  lemma {:induction false} NothingBefore(edges: seq<Edge>, t: int)
    requires forall e :: e in edges ==> t < e.at
    ensures Active(edges, t) == 0
  {
    if edges != [] {
      assert edges[|edges| - 1] in edges;
      NothingBefore(edges[..|edges| - 1], t);
    }
  }

  /**
   Reconstructs concurrency: the buckets tile the range from its base on, there are at
   most 1000 of them, and each shows the largest number of distinct sessions running at
   one instant. An unbounded range starts where the first run does, and buckets are hourly
   unless the range needs more than 1000: then they are the narrowest whole hours that do.
   */
  method SessionConcurrency(rows: seq<Run>, since: int, until: int) returns (base: int, width: int, points: seq<Point>)
    requires Ordered(rows)
    ensures forall k :: 0 <= k < |points| ==> Shown(rows, since, until, base, width, points, k)
    ensures points != [] ==> 0 < width && width % HOUR == 0 && |points| <= 1000
    ensures points != [] ==> base + (|points| - 1) * width < until <= base + |points| * width
    ensures points != [] ==> width == HOUR || until - base > 1000 * (width - HOUR)
    ensures points != [] && since <= 0 ==> Running(rows, since, until, base) != {}
    ensures if since > 0 then base == since && (points == [] <==> until <= since)
            else forall t :: t < base || points == [] ==> t < until ==> Running(rows, since, until, t) == {}
  {
    hide Paired, Running, Active, Ordered, Width;
    base, width, points := since, 0, [];
    var edges := MergeRuns(rows, since, until);
    if since <= 0 {
      if edges == [] {
        forall t
          ensures Running(rows, since, until, t) == {}
        {
          NothingBefore(edges, t);
        }
        return;
      }
      base := Earliest(edges);
      forall t | t < base
        ensures Running(rows, since, until, t) == {}
      {
        NothingBefore(edges, t);
      }
      StartsRunning(rows, since, until, edges, base);
    }
    if until <= base {
      return;
    }
    WidthBounds(base, until);
    width := Width(base, until);
    SortKeeps(edges, At);
    points := Buckets(SortBy(edges, At), base, until, width);
    if points != [] {
      AtMost(|points|, width, until - base);
    }
    forall k | 0 <= k < |points|
      ensures Shown(rows, since, until, base, width, points, k)
    {
      assert PeakAt(SortBy(edges, At), points, base, until, width, k);
      PeakShown(rows, since, until, edges, points[k].timestamp, Min(points[k].timestamp + width, until), points[k].sessions);
    }
  }

  lemma PeakShown(rows: seq<Run>, since: int, until: int, edges: seq<Edge>, lo: int, hi: int, p: int)
    requires IsPeak(SortBy(edges, At), lo, hi, p)
    requires forall t :: Active(edges, t) == |Running(rows, since, until, t)|
    ensures RunningPeak(rows, since, until, lo, hi, p)
  {
    hide Running, SortBy, Active;
    forall t
      ensures Active(SortBy(edges, At), t) == |Running(rows, since, until, t)|
    {
      SortActive(edges, t);
    }
    var w :| lo <= w < hi && Active(SortBy(edges, At), w) == p;
    assert |Running(rows, since, until, w)| == p;
  }
}

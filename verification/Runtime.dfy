/** Measures of agent time: unions of runs without the union of waits, by hour. */
module Runtime {
  import opened Arithmetic
  import opened Sorting

  /** Half-open, in milliseconds. */
  datatype Interval = Interval(start: int, end: int)

  function Start(i: Interval): int { i.start }

  predicate Within(i: Interval, t: int) { i.start <= t < i.end }

  predicate Covered(xs: seq<Interval>, t: int) { exists i :: 0 <= i < |xs| && Within(xs[i], t) }

  // ---- measure ----

  /** The instants of [lo, hi) that satisfy `p`. */
  ghost function Count(lo: int, hi: int, p: int -> bool): nat
    decreases hi - lo
  {
    if hi <= lo then 0 else Count(lo, hi - 1, p) + if p(hi - 1) then 1 else 0
  }

  lemma {:induction false} CountSplit(lo: int, mid: int, hi: int, p: int -> bool)
    requires lo <= mid <= hi
    ensures Count(lo, hi, p) == Count(lo, mid, p) + Count(mid, hi, p)
    decreases hi - mid
  {
    if mid < hi {
      CountSplit(lo, mid, hi - 1, p);
    }
  }

  lemma {:induction false} CountAll(lo: int, hi: int, p: int -> bool)
    requires forall t :: lo <= t < hi ==> p(t)
    ensures Count(lo, hi, p) == Max(0, hi - lo)
    decreases hi - lo
  {
    if lo < hi {
      CountAll(lo, hi - 1, p);
    }
  }

  lemma {:induction false} CountNone(lo: int, hi: int, p: int -> bool)
    requires forall t :: lo <= t < hi ==> !p(t)
    ensures Count(lo, hi, p) == 0
    decreases hi - lo
  {
    if lo < hi {
      CountNone(lo, hi - 1, p);
    }
  }

  lemma {:induction false} CountSame(lo: int, hi: int, p: int -> bool, q: int -> bool)
    requires forall t :: lo <= t < hi ==> p(t) == q(t)
    ensures Count(lo, hi, p) == Count(lo, hi, q)
    decreases hi - lo
  {
    if lo < hi {
      CountSame(lo, hi - 1, p, q);
    }
  }

  // ---- model time ----

  predicate ValidTool(tool: Interval) { tool.start > 0 && tool.end > 0 && tool.end >= tool.start }

  /** An instant no tool was running. */
  ghost function Free(tools: seq<Interval>): int -> bool { t => !Covered(tools, t) }

  ghost function Busy(tools: seq<Interval>): int -> bool { t => Covered(tools, t) }

  lemma CoveredSame(a: seq<Interval>, b: seq<Interval>, t: int)
    requires forall x :: x in a <==> x in b
    ensures Covered(a, t) == Covered(b, t)
  {
    if Covered(a, t) {
      var i :| 0 <= i < |a| && Within(a[i], t);
      assert a[i] in b;
    }
    if Covered(b, t) {
      var i :| 0 <= i < |b| && Within(b[i], t);
      assert b[i] in a;
    }
  }

  /** One more tool adds what reaches past every earlier one. */
  lemma BusyStep(tools: seq<Interval>, i: nat, start: int, end: int, cursor: int)
    requires SortedBy(tools, Start) && i < |tools| && start <= cursor <= end
    requires forall j :: 0 <= j < i ==> Min(end, tools[j].end) <= cursor
    requires cursor == start || exists j :: 0 <= j < i && cursor == Min(end, tools[j].end)
    ensures var from, to := Max(start, tools[i].start), Min(end, tools[i].end);
            Count(start, end, Busy(tools[..i + 1])) == Count(start, end, Busy(tools[..i])) + Max(0, to - Max(cursor, from))
  {
    var from, to := Max(start, tools[i].start), Min(end, tools[i].end);
    var a, p, q := Max(cursor, from), Busy(tools[..i]), Busy(tools[..i + 1]);
    assert tools[..i + 1] == tools[..i] + [tools[i]];
    forall t
      ensures q(t) == (p(t) || Within(tools[i], t))
    {
      if p(t) {
        var j :| 0 <= j < |tools[..i]| && Within(tools[..i][j], t);
        assert tools[..i + 1][j] == tools[..i][j];
      }
      if Within(tools[i], t) {
        assert tools[..i + 1][i] == tools[i];
      }
    }
    forall t | start <= t < end && !(a <= t < to)
      ensures p(t) == q(t)
    {
      if Within(tools[i], t) {
        assert t < cursor;
        var j :| 0 <= j < i && cursor == Min(end, tools[j].end);
        assert Start(tools[j]) <= Start(tools[i]);
        assert Within(tools[..i][j], t);
      }
    }
    forall t | a <= t < to
      ensures !p(t) && q(t)
    {
      assert Within(tools[i], t);
      assert forall j :: 0 <= j < i ==> !Within(tools[..i][j], t);
    }
    if a < to {
      CountThree(start, a, to, end, p);
      CountThree(start, a, to, end, q);
      CountSame(start, a, p, q);
      CountSame(to, end, p, q);
      CountAll(a, to, q);
      CountNone(a, to, p);
    } else {
      CountSame(start, end, p, q);
    }
  }

  lemma CountThree(a: int, b: int, c: int, d: int, p: int -> bool)
    requires a <= b <= c <= d
    ensures Count(a, d, p) == Count(a, b, p) + Count(b, c, p) + Count(c, d, p)
  {
    CountSplit(a, b, d, p);
    CountSplit(b, c, d, p);
  }

  lemma {:induction false} FreeBusy(lo: int, hi: int, tools: seq<Interval>)
    ensures lo <= hi ==> Count(lo, hi, Free(tools)) + Count(lo, hi, Busy(tools)) == hi - lo
    decreases hi - lo
  {
    if lo < hi {
      FreeBusy(lo, hi - 1, tools);
    }
  }

  /**
   Model time is the time of the window outside every tool interval, in whatever order the
   tools come; a tool with no valid interval leaves it unknown. The tools are left sorted.
   */
  method ModelDuration(start: int, end: int, tools: array<Interval>) returns (ms: int)
    modifies tools
    ensures ms == if start > 0 && end > start && forall x :: x in old(tools[..]) ==> 0 < x.start <= x.end
                  then Count(start, end, Free(old(tools[..]))) else 0
    ensures tools[..] == if start <= 0 || end <= start then old(tools[..]) else SortBy(old(tools[..]), Start)
  {
    if start <= 0 || end <= start {
      return 0;
    }
    ghost var given := tools[..];
    SortInPlace(tools);
    SortKeeps(given, Start);
    var valid, waiting := Waiting(start, end, tools);
    if !valid {
      assert exists x :: x in given && !ValidTool(x);
      return 0;
    }
    FreeOrder(start, end, tools[..], given);
    ms := end - start - waiting;
  }

  method SortInPlace(tools: array<Interval>)
    modifies tools
    ensures tools[..] == SortBy(old(tools[..]), Start)
  {
    SortKeeps(tools[..], Start);
    var sorted := SortBy(tools[..], Start);
    forall i | 0 <= i < tools.Length {
      tools[i] := sorted[i];
    }
  }

  /** The time of the window some tool was running. */
  method Waiting(start: int, end: int, tools: array<Interval>) returns (valid: bool, waiting: int)
    requires start < end && SortedBy(tools[..], Start)
    ensures valid <==> forall x :: x in tools[..] ==> 0 < x.start <= x.end
    ensures valid ==> waiting == Count(start, end, Busy(tools[..]))
  {
    ghost var sorted := tools[..];
    var cursor := start;
    valid, waiting := true, 0;
    CountNone(start, end, Busy([]));
    for i := 0 to tools.Length
      invariant start <= cursor <= end && forall j :: 0 <= j < i ==> Min(end, sorted[j].end) <= cursor
      invariant cursor == start || exists j :: 0 <= j < i && cursor == Min(end, sorted[j].end)
      invariant waiting == Count(start, end, Busy(sorted[..i]))
      invariant forall j :: 0 <= j < i ==> ValidTool(sorted[j])
    {
      var tool := tools[i];
      assert tool == sorted[i] && sorted[i] in sorted;
      if tool.start <= 0 || tool.end <= 0 || tool.end < tool.start {
        assert tool in tools[..] && !ValidTool(tool);
        return false, 0;
      }
      var from, to := Max(start, tool.start), Min(end, tool.end);
      BusyStep(sorted, i, start, end, cursor);
      waiting := waiting + Max(0, to - Max(cursor, from));
      cursor := Max(cursor, to);
    }
    assert sorted[..|sorted|] == sorted;
  }

  /** What is free depends on which tools there are, not on their order. */
  lemma FreeOrder(start: int, end: int, tools: seq<Interval>, given: seq<Interval>)
    requires start <= end && forall x :: x in tools <==> x in given
    ensures Count(start, end, Free(given)) == end - start - Count(start, end, Busy(tools))
  {
    FreeBusy(start, end, tools);
    forall t | start <= t < end
      ensures Free(tools)(t) == Free(given)(t)
    {
      CoveredSame(tools, given, t);
    }
    CountSame(start, end, Free(tools), Free(given));
  }

  // ---- unions ----

  /** Non-empty, in order, and apart. */
  ghost predicate Apart(xs: seq<Interval>) {
    && (forall i :: 0 <= i < |xs| ==> xs[i].start < xs[i].end)
    && (forall i, j :: 0 <= i < j < |xs| ==> xs[i].end < xs[j].start)
  }

  /** The same instants, as intervals in order that neither overlap nor touch. */
  method Union(intervals: seq<Interval>) returns (merged: seq<Interval>)
    ensures Apart(merged) && forall t :: Covered(merged, t) <==> Covered(intervals, t)
  {
    hide Covered, Apart, SortedBy;
    SortKeeps(intervals, Start);
    var sorted := SortBy(intervals, Start);
    merged := [];
    ApartNone();
    for i := 0 to |sorted|
      invariant Apart(merged) && forall t :: Covered(merged, t) <==> Covered(sorted[..i], t)
      invariant merged != [] ==> i > 0 && merged[|merged| - 1].start <= sorted[i - 1].start
    {
      var x := sorted[i];
      assert sorted[..i + 1] == sorted[..i] + [x];
      InOrder(sorted, i);
      ghost var before := merged;
      if x.end > x.start {
        if |merged| > 0 && x.start <= merged[|merged| - 1].end {
          var last := merged[|merged| - 1];
          merged := merged[|merged| - 1 := Interval(last.start, Max(last.end, x.end))];
          UnionExtends(before, x);
          ApartExtends(before, Max(last.end, x.end));
        } else {
          merged := merged + [x];
          UnionAppends(before, x);
          ApartAppends(before, x);
        }
      }
      forall t
        ensures Covered(merged, t) <==> Covered(sorted[..i + 1], t)
      {
        CoveredAppend(sorted[..i], x, t);
        assert Covered(merged, t) <==> Covered(before, t) || Within(x, t);
      }
    }
    assert sorted[..|sorted|] == sorted;
    forall t
      ensures Covered(sorted, t) <==> Covered(intervals, t)
    {
      CoveredSame(sorted, intervals, t);
    }
  }

  lemma InOrder(xs: seq<Interval>, i: nat)
    requires SortedBy(xs, Start) && i < |xs|
    ensures i > 0 ==> xs[i - 1].start <= xs[i].start
  {
    assert i > 0 ==> Start(xs[i - 1]) <= Start(xs[i]);
  }

  lemma WithinCovered(xs: seq<Interval>, j: nat, t: int)
    requires j < |xs| && Within(xs[j], t)
    ensures Covered(xs, t)
  {
  }

  lemma NotEmpty(xs: seq<Interval>, i: nat)
    requires Apart(xs) && i < |xs|
    ensures xs[i].start < xs[i].end
  {
  }

  lemma ApartNone()
    ensures Apart([]) && forall t :: !Covered([], t)
  {
  }

  lemma ApartExtends(xs: seq<Interval>, end: int)
    requires Apart(xs) && xs != [] && xs[|xs| - 1].end <= end
    ensures Apart(xs[|xs| - 1 := Interval(xs[|xs| - 1].start, end)])
  {
  }

  lemma ApartAppends(xs: seq<Interval>, x: Interval)
    requires Apart(xs) && x.start < x.end && (xs == [] || xs[|xs| - 1].end < x.start)
    ensures Apart(xs + [x])
  {
    forall i | 0 <= i < |xs|
      ensures xs[i].end < x.start
    {
      assert xs[i].end <= xs[|xs| - 1].end;
    }
  }

  lemma CoveredAppend(xs: seq<Interval>, x: Interval, t: int)
    ensures Covered(xs + [x], t) <==> Covered(xs, t) || Within(x, t)
  {
    if Covered(xs, t) {
      var i :| 0 <= i < |xs| && Within(xs[i], t);
      assert (xs + [x])[i] == xs[i];
    }
    if Within(x, t) {
      assert (xs + [x])[|xs|] == x;
    }
  }

  lemma UnionAppends(xs: seq<Interval>, x: Interval)
    ensures forall t :: Covered(xs + [x], t) <==> Covered(xs, t) || Within(x, t)
  {
    forall t
      ensures Covered(xs + [x], t) <==> Covered(xs, t) || Within(x, t)
    {
      CoveredAppend(xs, x, t);
    }
  }

  lemma UnionExtends(xs: seq<Interval>, x: Interval)
    requires xs != [] && xs[|xs| - 1].start <= x.start <= xs[|xs| - 1].end
    ensures var last := xs[|xs| - 1];
            forall t :: Covered(xs[|xs| - 1 := Interval(last.start, Max(last.end, x.end))], t) <==> Covered(xs, t) || Within(x, t)
  {
    var most, last := xs[..|xs| - 1], xs[|xs| - 1];
    var wide := Interval(last.start, Max(last.end, x.end));
    assert xs == most + [last] && xs[|xs| - 1 := wide] == most + [wide];
    forall t
      ensures Covered(most + [wide], t) <==> Covered(xs, t) || Within(x, t)
    {
      CoveredAppend(most, wide, t);
      CoveredAppend(most, last, t);
    }
  }

  // ---- run hours ----

  function Get(totals: map<int, int>, b: int): int { if b in totals then totals[b] else 0 }

  /** The part of [start, end) in the hour from `b`. */
  function InHour(b: int, start: int, end: int): int { Max(0, Min(end, b + HOUR) - Max(start, b)) }

  /** Adds a span to the hours it touches. */
  method Add(totals: map<int, int>, start: int, end: int) returns (r: map<int, int>)
    requires start >= 0
    ensures forall b :: b % HOUR == 0 ==> Get(r, b) == Get(totals, b) + InHour(b, start, end)
    ensures start >= end ==> r == totals
  {
    r := totals;
    var at := start;
    while at < end
      invariant start <= at && (at <= end || at == start) && (at == start ==> r == totals)
      invariant forall b :: b % HOUR == 0 ==> Get(r, b) == Get(totals, b) + InHour(b, start, Min(at, end))
      decreases end - at
    {
      var bucket := at / HOUR * HOUR;
      var to := Min(end, bucket + HOUR);
      HourOf(at, bucket);
      ghost var before := r;
      r := r[bucket := Get(r, bucket) + to - at];
      forall b | b % HOUR == 0
        ensures Get(r, b) == Get(totals, b) + InHour(b, start, Min(to, end))
      {
        assert Get(before, b) == Get(totals, b) + InHour(b, start, Min(at, end));
        HoursApart(b, bucket);
      }
      at := to;
    }
  }

  lemma HourOf(at: int, bucket: int)
    requires at >= 0 && bucket == at / HOUR * HOUR
    ensures bucket <= at < bucket + HOUR && bucket % HOUR == 0
  {
  }

  lemma HoursApart(a: int, b: int)
    requires a % HOUR == 0 && b % HOUR == 0
    ensures a == b || a + HOUR <= b || b + HOUR <= a
  {
  }

  /** Running and not waiting. */
  ghost function Working(runs: seq<Interval>, waits: seq<Interval>): int -> bool {
    t => Covered(runs, t) && !Covered(waits, t)
  }

  /** Every hour holds what it held before and the working time of it before `u`. */
  ghost predicate Accounted(totals: map<int, int>, before: map<int, int>, p: int -> bool, u: int) {
    forall b :: b % HOUR == 0 ==> Get(totals, b) == Get(before, b) + Count(b, Max(b, Min(u, b + HOUR)), p)
  }

  /** Time that does not work changes nothing. */
  lemma AccountedIdle(totals: map<int, int>, before: map<int, int>, p: int -> bool, u: int, v: int)
    requires Accounted(totals, before, p, u)
    requires forall t :: Min(u, v) <= t < Max(u, v) ==> !p(t)
    ensures Accounted(totals, before, p, v)
  {
    forall b | b % HOUR == 0
      ensures Get(totals, b) == Get(before, b) + Count(b, Max(b, Min(v, b + HOUR)), p)
    {
      var x, y := Max(b, Min(u, b + HOUR)), Max(b, Min(v, b + HOUR));
      CountSplit(b, Min(x, y), Max(x, y), p);
      CountNone(Min(x, y), Max(x, y), p);
    }
  }

  /** A working span adds its length to the hours it touches. */
  lemma AccountedSpan(totals: map<int, int>, more: map<int, int>, before: map<int, int>, p: int -> bool, u: int, v: int)
    requires Accounted(totals, before, p, u) && u <= v && forall t :: u <= t < v ==> p(t)
    requires forall b :: b % HOUR == 0 ==> Get(more, b) == Get(totals, b) + InHour(b, u, v)
    ensures Accounted(more, before, p, v)
  {
    forall b | b % HOUR == 0
      ensures Get(more, b) == Get(before, b) + Count(b, Max(b, Min(v, b + HOUR)), p)
    {
      var x, y := Max(b, Min(u, b + HOUR)), Max(b, Min(v, b + HOUR));
      CountSplit(b, x, y, p);
      CountAll(x, y, p);
      assert Get(totals, b) == Get(before, b) + Count(b, x, p);
    }
  }

  /** One merged run, less the merged waits from `index` on. */
  method AddRun(totals: map<int, int>, ghost before: map<int, int>, runs: seq<Interval>, i: nat, blocked: seq<Interval>, index: nat)
    returns (r: map<int, int>, next: nat)
    requires Apart(runs) && Apart(blocked) && i < |runs| && runs[i].start >= 0 && index <= |blocked|
    requires index > 0 ==> blocked[index - 1].end <= runs[i].start
    requires Accounted(totals, before, Working(runs, blocked), runs[i].start)
    ensures index <= next <= |blocked| && (next > 0 ==> blocked[next - 1].end <= runs[i].start)
    ensures Accounted(r, before, Working(runs, blocked), runs[i].end)
  {
    hide Accounted, InHour, Get, Count, Covered, Apart;
    var run := runs[i];
    ghost var p := Working(runs, blocked);
    NotEmpty(runs, i);
    var cursor := run.start;
    r, next := totals, index;
    while next < |blocked| && blocked[next].end <= cursor
      invariant index <= next <= |blocked| && (next > 0 ==> blocked[next - 1].end <= cursor)
    {
      next := next + 1;
    }
    var j := next;
    while j < |blocked| && blocked[j].start < run.end
      invariant next <= j <= |blocked| && run.start <= cursor
      invariant j > 0 ==> blocked[j - 1].end <= cursor
      invariant forall t :: run.end <= t < cursor ==> Covered(blocked, t)
      invariant Accounted(r, before, p, cursor)
    {
      var x := Min(run.end, blocked[j].start);
      NotEmpty(blocked, j);
      ghost var was := r;
      r := Add(r, cursor, x);
      if cursor < x {
        WorkedSpan(was, r, before, runs, i, blocked, j, cursor, x);
      }
      WaitedSpan(r, before, runs, blocked, j, Max(cursor, x), Max(cursor, blocked[j].end));
      assert forall t :: run.end <= t < Max(cursor, blocked[j].end) ==> Covered(blocked, t);
      cursor := Max(cursor, blocked[j].end);
      j := j + 1;
    }
    ghost var was := r;
    r := Add(r, cursor, run.end);
    if cursor < run.end {
      WorkedSpan(was, r, before, runs, i, blocked, j, cursor, run.end);
    } else {
      AccountedIdle(r, before, p, cursor, run.end);
    }
  }

  lemma WorkedSpan(was: map<int, int>, r: map<int, int>, before: map<int, int>, runs: seq<Interval>, i: nat,
                   blocked: seq<Interval>, j: nat, from: int, to: int)
    requires Apart(blocked) && i < |runs| && j <= |blocked|
    requires runs[i].start <= from < to <= runs[i].end
    requires (j > 0 ==> blocked[j - 1].end <= from) && (j < |blocked| ==> to <= blocked[j].start)
    requires Accounted(was, before, Working(runs, blocked), from)
    requires forall b :: b % HOUR == 0 ==> Get(r, b) == Get(was, b) + InHour(b, from, to)
    ensures Accounted(r, before, Working(runs, blocked), to)
  {
    hide Accounted, InHour, Get, Apart;
    WorkingSpan(runs, i, blocked, j, from, to);
    AccountedSpan(was, r, before, Working(runs, blocked), from, to);
  }

  lemma WaitedSpan(r: map<int, int>, before: map<int, int>, runs: seq<Interval>, blocked: seq<Interval>, j: nat, from: int, to: int)
    requires j < |blocked| && blocked[j].start <= from <= to && (from < to ==> to == blocked[j].end)
    requires Accounted(r, before, Working(runs, blocked), from)
    ensures Accounted(r, before, Working(runs, blocked), to)
    ensures forall t :: from <= t < to ==> Covered(blocked, t)
  {
    hide Accounted;
    forall t | from <= t < to
      ensures Covered(blocked, t)
    {
      WithinCovered(blocked, j, t);
    }
    AccountedIdle(r, before, Working(runs, blocked), from, to);
  }

  /** Inside a run, past the waits before `j` and short of the next, every instant works. */
  lemma WorkingSpan(runs: seq<Interval>, i: nat, blocked: seq<Interval>, j: nat, from: int, to: int)
    requires Apart(blocked) && i < |runs| && j <= |blocked|
    requires runs[i].start <= from && to <= runs[i].end
    requires (j > 0 ==> blocked[j - 1].end <= from) && (j < |blocked| ==> to <= blocked[j].start)
    ensures forall t :: from <= t < to ==> Working(runs, blocked)(t)
  {
    forall t | from <= t < to
      ensures Working(runs, blocked)(t)
    {
      assert Within(runs[i], t);
      forall k | 0 <= k < |blocked|
        ensures !Within(blocked[k], t)
      {
        if k < j {
          assert blocked[k].end <= blocked[j - 1].end;
        } else {
          assert blocked[j].start <= blocked[k].start;
        }
      }
    }
  }

  /** One session's hours: the union of its runs less the union of its waits. */
  method AddSession(totals: map<int, int>, since: int, intervals: seq<Interval>, waits: seq<Interval>)
    returns (r: map<int, int>, from: int)
    requires forall x :: x in intervals && x.start < x.end ==> x.start > 0
    ensures forall b :: b % HOUR == 0 ==>
              Get(r, b) == Get(totals, b) + Count(b, b + HOUR, Working(intervals, waits))
    ensures since > 0 && (forall x :: x in intervals && x.start < x.end ==> since <= x.start) ==> from == since
    ensures since > 0 ==> 0 < from <= since
    ensures from == since || exists x :: x in intervals && x.start < x.end && x.start == from
    ensures forall t :: Covered(intervals, t) ==> 0 < from <= t
  {
    hide Accounted, Get, Count;
    var blocked := Union(waits);
    var runs := Union(intervals);
    RunsPositive(intervals, runs);
    r, from := totals, since;
    ghost var p := Working(runs, blocked);
    var index := 0;
    ghost var u := if runs == [] then 0 else runs[0].start;
    StartIdle(totals, runs, blocked, u);
    for i := 0 to |runs|
      invariant index <= |blocked|
      invariant i < |runs| ==> (index > 0 ==> blocked[index - 1].end <= runs[i].start)
      invariant Accounted(r, totals, p, if i < |runs| then runs[i].start else if i == 0 then u else runs[i - 1].end)
      invariant i > 0 || since > 0 ==> 0 < from
      invariant since > 0 ==> from <= since
      invariant forall j :: 0 <= j < i ==> from <= runs[j].start
      invariant from == since || exists j :: 0 <= j < i && from == runs[j].start
    {
      from := if from <= 0 then runs[i].start else Min(from, runs[i].start);
      r, index := AddRun(r, totals, runs, i, blocked, index);
      if i + 1 < |runs| {
        GapIdle(runs, i);
        AccountedIdle(r, totals, p, runs[i].end, runs[i + 1].start);
      }
    }
    AccountedAll(r, totals, runs, blocked, if runs == [] then u else runs[|runs| - 1].end, intervals, waits);
    StartsFrom(intervals, runs, since, from);
  }

  lemma StartsFrom(intervals: seq<Interval>, runs: seq<Interval>, since: int, from: int)
    requires Apart(runs) && forall t :: Covered(runs, t) <==> Covered(intervals, t)
    requires forall j :: 0 <= j < |runs| ==> from <= runs[j].start
    requires (since > 0 ==> 0 < from <= since) && (runs != [] ==> 0 < from)
    requires from == since || exists j :: 0 <= j < |runs| && from == runs[j].start
    ensures since > 0 && (forall x :: x in intervals && x.start < x.end ==> since <= x.start) ==> from == since
    ensures from == since || exists x :: x in intervals && x.start < x.end && x.start == from
    ensures forall t :: Covered(intervals, t) ==> 0 < from <= t
  {
    if from != since {
      var j :| 0 <= j < |runs| && from == runs[j].start;
      RunStarts(intervals, runs, j);
    }
    forall t | Covered(intervals, t)
      ensures 0 < from <= t
    {
      assert Covered(runs, t);
    }
  }

  lemma AccountedAll(r: map<int, int>, totals: map<int, int>, runs: seq<Interval>, blocked: seq<Interval>, end: int,
                     intervals: seq<Interval>, waits: seq<Interval>)
    requires Apart(runs) && (runs != [] ==> end == runs[|runs| - 1].end)
    requires Accounted(r, totals, Working(runs, blocked), end)
    requires forall t :: Covered(runs, t) <==> Covered(intervals, t)
    requires forall t :: Covered(blocked, t) <==> Covered(waits, t)
    ensures forall b :: b % HOUR == 0 ==> Get(r, b) == Get(totals, b) + Count(b, b + HOUR, Working(intervals, waits))
  {
    hide Covered, Apart, Get, Count;
    NothingAfter(runs, end);
    var p := Working(runs, blocked);
    forall b | b % HOUR == 0
      ensures Get(r, b) == Get(totals, b) + Count(b, b + HOUR, Working(intervals, waits))
    {
      AccountedIdle(r, totals, p, end, Max(end, b + HOUR));
      CountSame(b, b + HOUR, p, Working(intervals, waits));
    }
  }

  lemma RunsPositive(intervals: seq<Interval>, runs: seq<Interval>)
    requires forall x :: x in intervals && x.start < x.end ==> x.start > 0
    requires Apart(runs) && forall t :: Covered(runs, t) <==> Covered(intervals, t)
    ensures forall i :: 0 <= i < |runs| ==> runs[i].start > 0
  {
    forall i | 0 <= i < |runs|
      ensures runs[i].start > 0
    {
      assert Within(runs[i], runs[i].start);
      assert Covered(intervals, runs[i].start);
      var k :| 0 <= k < |intervals| && Within(intervals[k], runs[i].start);
      assert intervals[k] in intervals;
    }
  }

  lemma StartIdle(totals: map<int, int>, runs: seq<Interval>, blocked: seq<Interval>, u: int)
    requires Apart(runs) && (runs != [] ==> u == runs[0].start)
    ensures Accounted(totals, totals, Working(runs, blocked), u)
  {
    var p := Working(runs, blocked);
    forall b | b % HOUR == 0
      ensures Count(b, Max(b, Min(u, b + HOUR)), p) == 0
    {
      forall t | b <= t < Max(b, Min(u, b + HOUR))
        ensures !p(t)
      {
        assert forall i :: 0 < i < |runs| ==> runs[0].start < runs[i].start;
      }
      CountNone(b, Max(b, Min(u, b + HOUR)), p);
    }
  }

  lemma GapIdle(runs: seq<Interval>, i: nat)
    requires Apart(runs) && i + 1 < |runs|
    ensures forall t :: runs[i].end <= t < runs[i + 1].start ==> !Covered(runs, t)
  {
    forall t | runs[i].end <= t < runs[i + 1].start
      ensures !Covered(runs, t)
    {
      forall k | 0 <= k < |runs|
        ensures !Within(runs[k], t)
      {
        if k < i {
          assert runs[k].end < runs[i].start;
        } else if k > i + 1 {
          assert runs[i + 1].end < runs[k].start;
        }
      }
    }
  }

  lemma NothingAfter(runs: seq<Interval>, end: int)
    requires Apart(runs) && (runs != [] ==> end == runs[|runs| - 1].end)
    ensures forall t :: end <= t ==> !Covered(runs, t)
  {
    forall t | end <= t
      ensures !Covered(runs, t)
    {
      forall k | 0 <= k < |runs|
        ensures !Within(runs[k], t)
      {
        if k < |runs| - 1 {
          assert runs[k].end < runs[|runs| - 1].start;
        }
      }
    }
  }

  // ---- every session ----

  /** A sum over a set, in any order. */
  ghost function Sum(ss: set<string>, f: string -> int): int {
    if ss == {} then 0 else var s :| s in ss; f(s) + Sum(ss - {s}, f)
  }

  lemma {:induction false} SumRemove(ss: set<string>, x: string, f: string -> int)
    requires x in ss
    ensures Sum(ss, f) == f(x) + Sum(ss - {x}, f)
    decreases ss
  {
    var s :| s in ss && Sum(ss, f) == f(s) + Sum(ss - {s}, f);
    if s != x {
      SumRemove(ss - {s}, x, f);
      SumRemove(ss - {x}, s, f);
      assert ss - {s} - {x} == ss - {x} - {s};
    }
  }

  function Of(m: map<string, seq<Interval>>, s: string): seq<Interval> { if s in m then m[s] else [] }

  /** The working time of one session in [lo, hi). */
  ghost function WorkIn(runs: map<string, seq<Interval>>, waits: map<string, seq<Interval>>, lo: int, hi: int): string -> int {
    s => Count(lo, hi, Working(Of(runs, s), Of(waits, s)))
  }

  /** A run that is not empty starts after the epoch and inside the range. */
  ghost predicate Clipped(runs: map<string, seq<Interval>>, since: int, until: int) {
    forall s, x :: s in runs && x in runs[s] && x.start < x.end ==> 0 < x.start && since <= x.start && x.end <= until
  }

  /** A run begins at an instant. */
  ghost predicate Begins(runs: map<string, seq<Interval>>, at: int) {
    exists s, x :: s in runs && x in runs[s] && x.start < x.end && x.start == at
  }

  /** The hours, and the start of the range: the earliest run of an unbounded one. */
  method Totals(runs: map<string, seq<Interval>>, waits: map<string, seq<Interval>>, since: int, ghost until: int)
    returns (totals: map<int, int>, from: int)
    requires Clipped(runs, since, until)
    ensures forall b :: b % HOUR == 0 ==> Get(totals, b) == Sum(runs.Keys, WorkIn(runs, waits, b, b + HOUR))
    ensures since > 0 ==> from == since
    ensures from == since || Begins(runs, from)
    ensures forall s, t :: s in runs && Covered(runs[s], t) ==> 0 < from <= t < until
  {
    hide Covered;
    totals, from := map[], since;
    var rest := runs.Keys;
    while rest != {}
      invariant rest <= runs.Keys
      invariant forall b :: b % HOUR == 0 ==> Get(totals, b) == Sum(runs.Keys - rest, WorkIn(runs, waits, b, b + HOUR))
      invariant since > 0 ==> from == since
      invariant from == since || Begins(runs, from)
      invariant forall s, t :: s in runs && s !in rest && Covered(runs[s], t) ==> 0 < from <= t < until
    {
      var s :| s in rest;
      ghost var before, was, done := totals, from, runs.Keys - rest;
      totals, from := AddSession(totals, from, runs[s], Of(waits, s));
      rest := rest - {s};
      SessionWithin(runs, since, until, s);
      forall b | b % HOUR == 0
        ensures Get(totals, b) == Sum(runs.Keys - rest, WorkIn(runs, waits, b, b + HOUR))
      {
        assert runs.Keys - rest - {s} == done;
        SumRemove(runs.Keys - rest, s, WorkIn(runs, waits, b, b + HOUR));
      }
    }
    assert runs.Keys - rest == runs.Keys;
  }

  lemma SessionWithin(runs: map<string, seq<Interval>>, since: int, until: int, s: string)
    requires Clipped(runs, since, until) && s in runs
    ensures forall t :: Covered(runs[s], t) ==> since <= t < until
  {
    forall t | Covered(runs[s], t)
      ensures since <= t < until
    {
      var i :| 0 <= i < |runs[s]| && Within(runs[s][i], t);
      assert runs[s][i] in runs[s];
    }
  }

  /** A merged run starts where one of the runs does. */
  lemma RunStarts(intervals: seq<Interval>, runs: seq<Interval>, i: nat)
    requires Apart(runs) && i < |runs| && forall t :: Covered(runs, t) <==> Covered(intervals, t)
    ensures Covered(intervals, runs[i].start) && exists x :: x in intervals && x.start == runs[i].start && x.start < x.end
  {
    var t := runs[i].start;
    assert Within(runs[i], t);
    assert Covered(runs, t);
    forall j | 0 <= j < |runs|
      ensures !Within(runs[j], t - 1)
    {
    }
    var k :| 0 <= k < |intervals| && Within(intervals[k], t);
    assert intervals[k] in intervals;
    assert !Covered(runs, t - 1);
    assert !Covered(intervals, t - 1);
    assert !Within(intervals[k], t - 1);
  }

  datatype HourTotal = HourTotal(timestamp: int, ms: int)

  ghost predicate HourAt(runs: map<string, seq<Interval>>, waits: map<string, seq<Interval>>, first: int, result: seq<HourTotal>, k: nat)
    requires k < |result|
  {
    var b := first + k * HOUR;
    result[k] == HourTotal(b, Sum(runs.Keys, WorkIn(runs, waits, b, b + HOUR)))
  }

  ghost function HoursSum(result: seq<HourTotal>): int {
    if result == [] then 0 else HoursSum(result[..|result| - 1]) + result[|result| - 1].ms
  }

  lemma {:induction false} SumAdd(ss: set<string>, f: string -> int, g: string -> int, h: string -> int)
    requires forall s :: s in ss ==> f(s) + g(s) == h(s)
    ensures Sum(ss, f) + Sum(ss, g) == Sum(ss, h)
    decreases ss
  {
    if ss != {} {
      var s :| s in ss;
      SumRemove(ss, s, f);
      SumRemove(ss, s, g);
      SumRemove(ss, s, h);
      SumAdd(ss - {s}, f, g, h);
    }
  }

  /** One more hour: the sums so far and the hour's add up. */
  lemma HourAdded(runs: map<string, seq<Interval>>, waits: map<string, seq<Interval>>, lo: int, mid: int, hi: int)
    requires lo <= mid <= hi
    ensures Sum(runs.Keys, WorkIn(runs, waits, lo, mid)) + Sum(runs.Keys, WorkIn(runs, waits, mid, hi))
         == Sum(runs.Keys, WorkIn(runs, waits, lo, hi))
  {
    forall s | s in runs
      ensures WorkIn(runs, waits, lo, mid)(s) + WorkIn(runs, waits, mid, hi)(s) == WorkIn(runs, waits, lo, hi)(s)
    {
      CountSplit(lo, mid, hi, Working(Of(runs, s), Of(waits, s)));
    }
    SumAdd(runs.Keys, WorkIn(runs, waits, lo, mid), WorkIn(runs, waits, mid, hi), WorkIn(runs, waits, lo, hi));
  }

  /** A stretch no session runs in adds nothing. */
  lemma NoWork(runs: map<string, seq<Interval>>, waits: map<string, seq<Interval>>, lo: int, hi: int)
    requires forall s, t :: s in runs && Covered(runs[s], t) ==> !(lo <= t < hi)
    ensures Sum(runs.Keys, WorkIn(runs, waits, lo, hi)) == 0
  {
    var f := WorkIn(runs, waits, lo, hi);
    forall s | s in runs
      ensures f(s) + f(s) == f(s)
    {
      CountNone(lo, hi, Working(runs[s], Of(waits, s)));
    }
    SumAdd(runs.Keys, f, f, f);
  }

  /**
   Each hour of the range holds, summed over the sessions, exactly the time the union of
   a session's runs less the union of its waits takes in that hour, and the hours add up
   to the whole.
   */
  method RunBuckets(runs: map<string, seq<Interval>>, waits: map<string, seq<Interval>>, since: int, until: int)
    returns (first: int, result: seq<HourTotal>)
    requires Clipped(runs, since, until)
    ensures first % HOUR == 0 && (since > 0 ==> first == since / HOUR * HOUR)
    ensures forall k :: 0 <= k < |result| ==> HourAt(runs, waits, first, result, k)
    ensures since > 0 || result != [] ==> first + |result| * HOUR >= until
    ensures result != [] ==> first + (|result| - 1) * HOUR < until
    ensures since <= 0 && result != [] ==>
              exists at :: Begins(runs, at) && first == at / HOUR * HOUR && forall s, t :: s in runs && Covered(runs[s], t) ==> at <= t
    ensures since <= 0 && result == [] ==> forall s, t :: s in runs ==> !Covered(runs[s], t)
    ensures HoursSum(result) == Sum(runs.Keys, WorkIn(runs, waits, 0, Max(0, until)))
  {
    result := [];
    var totals, from := Totals(runs, waits, since, until);
    if from <= 0 {
      first := 0;
      NoWork(runs, waits, 0, Max(0, until));
      return;
    }
    first := from / HOUR * HOUR;
    HourOf(from, first);
    result := FillHours(runs, waits, totals, first, until);
    WholeRange(runs, waits, first, first + |result| * HOUR, until);
  }

  /** The totals of the hours from `first`, in order. */
  method FillHours(ghost runs: map<string, seq<Interval>>, ghost waits: map<string, seq<Interval>>, totals: map<int, int>,
                   first: int, until: int)
    returns (result: seq<HourTotal>)
    requires first % HOUR == 0
    requires forall b :: b % HOUR == 0 ==> Get(totals, b) == Sum(runs.Keys, WorkIn(runs, waits, b, b + HOUR))
    ensures forall k :: 0 <= k < |result| ==> HourAt(runs, waits, first, result, k)
    ensures until <= first + |result| * HOUR && (result != [] ==> first + (|result| - 1) * HOUR < until)
    ensures HoursSum(result) == Sum(runs.Keys, WorkIn(runs, waits, first, first + |result| * HOUR))
  {
    hide WorkIn, Sum, HourAt;
    result := [];
    var at := first;
    NoWork(runs, waits, first, first);
    while at < until
      invariant at == first + |result| * HOUR && at % HOUR == 0 && (result != [] ==> at - HOUR < until)
      invariant forall k :: 0 <= k < |result| ==> HourAt(runs, waits, first, result, k)
      invariant HoursSum(result) == Sum(runs.Keys, WorkIn(runs, waits, first, at))
      decreases until - at
    {
      ghost var before := result;
      result := result + [HourTotal(at, Get(totals, at))];
      assert result[..|before|] == before;
      HourAdded(runs, waits, first, at, at + HOUR);
      assert Get(totals, at) == Sum(runs.Keys, WorkIn(runs, waits, at, at + HOUR));
      HoursAppend(runs, waits, first, before, result);
      at := at + HOUR;
    }
  }

  lemma HoursAppend(runs: map<string, seq<Interval>>, waits: map<string, seq<Interval>>, first: int, before: seq<HourTotal>, result: seq<HourTotal>)
    requires var at := first + |before| * HOUR;
             result == before + [HourTotal(at, Sum(runs.Keys, WorkIn(runs, waits, at, at + HOUR)))]
    requires forall k :: 0 <= k < |before| ==> HourAt(runs, waits, first, before, k)
    ensures forall k :: 0 <= k < |result| ==> HourAt(runs, waits, first, result, k)
  {
    hide WorkIn, Sum;
    forall k | 0 <= k < |before|
      ensures HourAt(runs, waits, first, result, k)
    {
      assert HourAt(runs, waits, first, before, k);
    }
  }

  /** Work only lies in the range. */
  lemma WholeRange(runs: map<string, seq<Interval>>, waits: map<string, seq<Interval>>, first: int, at: int, until: int)
    requires 0 <= first <= at && until <= at
    requires forall s, t :: s in runs && Covered(runs[s], t) ==> first <= t < until
    ensures Sum(runs.Keys, WorkIn(runs, waits, first, at)) == Sum(runs.Keys, WorkIn(runs, waits, 0, Max(0, until)))
  {
    HourAdded(runs, waits, 0, first, at);
    NoWork(runs, waits, 0, first);
    HourAdded(runs, waits, 0, Max(0, until), at);
    NoWork(runs, waits, Max(0, until), at);
  }

  // ---- waits ----

  /** The last run that started by `at`, or -1. */
  method LastStarted(owners: seq<Interval>, at: int) returns (index: int)
    requires SortedBy(owners, Start)
    ensures -1 <= index < |owners|
    ensures forall j :: 0 <= j <= index ==> owners[j].start <= at
    ensures forall j :: index < j < |owners| ==> at < owners[j].start
  {
    var lo, hi := 0, |owners|;
    while lo < hi
      invariant 0 <= lo <= hi <= |owners|
      invariant forall j :: 0 <= j < lo ==> owners[j].start <= at
      invariant forall j :: hi <= j < |owners| ==> at < owners[j].start
    {
      var mid := (lo + hi) / 2;
      if owners[mid].start > at {
        forall j | mid <= j < |owners|
          ensures at < owners[j].start
        {
          assert mid < j ==> Start(owners[mid]) <= Start(owners[j]);
        }
        hi := mid;
      } else {
        forall j | 0 <= j <= mid
          ensures owners[j].start <= at
        {
          assert j < mid ==> Start(owners[j]) <= Start(owners[mid]);
        }
        lo := mid + 1;
      }
    }
    index := lo - 1;
  }

  /** A wait ends no later than a run it began in; among those, the one that started last. */
  ghost predicate BoundBy(owners: seq<Interval>, wait: Interval, r: Interval) {
    exists o :: o in owners && Within(o, wait.start) && r == Interval(wait.start, Min(wait.end, o.end))
                && forall x :: x in owners && Within(x, wait.start) ==> x.start <= o.start
  }

  /** A bound wait blocks only time of its own run: it cannot spill into a later one. */
  lemma BoundInside(owners: seq<Interval>, wait: Interval, r: Interval, t: int)
    requires BoundBy(owners, wait, r) && Within(r, t)
    ensures Within(wait, t) && exists o :: o in owners && Within(o, t) && Within(o, wait.start)
  {
    var o :| o in owners && Within(o, wait.start) && r == Interval(wait.start, Min(wait.end, o.end));
    assert Within(o, t);
  }

  ghost predicate Orphan(owners: seq<Interval>, wait: Interval) { !Covered(owners, wait.start) }

  /** Each result binds one of the first `n` waits, in their order, and the others began in no run. */
  ghost predicate Binds(runs: seq<Interval>, waits: seq<Interval>, n: nat, bounded: seq<Interval>, from: seq<nat>)
    requires n <= |waits|
  {
    && |from| == |bounded|
    && (forall k :: 0 <= k < |from| ==> from[k] < n && BoundBy(runs, waits[from[k]], bounded[k]))
    && (forall j, k :: 0 <= j < k < |from| ==> from[j] < from[k])
    && (forall i :: 0 <= i < n && i !in from ==> Orphan(runs, waits[i]))
  }

  /** Binds each wait to the run it began in; a wait begun in none is dropped. */
  method BoundWaits(runs: seq<Interval>, waits: seq<Interval>) returns (bounded: seq<Interval>)
    ensures exists from :: Binds(runs, waits, |waits|, bounded, from)
  {
    hide BoundBy, Orphan, Covered, SortedBy;
    SortKeeps(runs, Start);
    var owners := SortBy(runs, Start);
    bounded := [];
    ghost var from: seq<nat> := [];
    for i := 0 to |waits|
      invariant Binds(runs, waits, i, bounded, from)
    {
      var wait := waits[i];
      var index := LastStarted(owners, wait.start);
      while index >= 0 && owners[index].end <= wait.start
        invariant -1 <= index < |owners|
        invariant forall j :: index < j < |owners| ==> !Within(owners[j], wait.start)
        invariant forall j :: 0 <= j <= index ==> owners[j].start <= wait.start
      {
        index := index - 1;
      }
      if index >= 0 {
        OwnerFound(runs, owners, wait, index);
        bounded, from := bounded + [Interval(wait.start, Min(wait.end, owners[index].end))], from + [i];
      } else {
        NoOwner(runs, owners, wait);
      }
    }
  }

  lemma NoOwner(runs: seq<Interval>, owners: seq<Interval>, wait: Interval)
    requires forall x :: x in owners <==> x in runs
    requires forall j :: 0 <= j < |owners| ==> !Within(owners[j], wait.start)
    ensures Orphan(runs, wait)
  {
    CoveredSame(owners, runs, wait.start);
  }

  lemma OwnerFound(runs: seq<Interval>, owners: seq<Interval>, wait: Interval, index: nat)
    requires SortedBy(owners, Start) && (forall x :: x in owners <==> x in runs) && index < |owners|
    requires owners[index].start <= wait.start < owners[index].end
    requires forall j :: index < j < |owners| ==> !Within(owners[j], wait.start)
    ensures BoundBy(runs, wait, Interval(wait.start, Min(wait.end, owners[index].end)))
  {
    var o := owners[index];
    assert o in owners;
    forall x | x in runs && Within(x, wait.start)
      ensures x.start <= o.start
    {
      assert x in owners;
      var j :| 0 <= j < |owners| && owners[j] == x;
      assert j < index ==> Start(owners[j]) <= Start(owners[index]);
    }
  }
}

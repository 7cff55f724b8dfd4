/**
 Hour rollups of request history: whole-hour rows where an hour lies inside the range and
 under one calendar label, exact facts for every other hour.
 */
module History {
  import opened Arithmetic
  import opened Sorting

  datatype Tokens = Tokens(input: int, output: int, read: int, write: int)

  /** One request: when it was made, what it is grouped under beside its label, and what it used. */
  datatype Fact<D> = Fact(time: int, dims: D, tokens: Tokens)

  /** What a group adds up to; Empty is no request at all. */
  datatype Sums = Empty | Sums(messages: int, tokens: Tokens, first: int, last: int)

  /** A maintained row: one UTC hour's requests of one group. */
  datatype HourRow<D> = HourRow(bucket: int, dims: D, sums: Sums)

  datatype Group<D> = Group(cal: string, dims: D, sums: Sums)

  /** Half-open, under one calendar label. */
  datatype LabelRange = LabelRange(start: int, end: int, cal: string)

  function PlusTokens(a: Tokens, b: Tokens): Tokens {
    Tokens(a.input + b.input, a.output + b.output, a.read + b.read, a.write + b.write)
  }

  function Plus(a: Sums, b: Sums): Sums {
    if a.Empty? then b else if b.Empty? then a
    else Sums(a.messages + b.messages, PlusTokens(a.tokens, b.tokens), Min(a.first, b.first), Max(a.last, b.last))
  }

  function One<D>(f: Fact<D>): Sums { Sums(1, f.tokens, f.time, f.time) }

  /** The direct fold over the facts that satisfy `p`. */
  ghost function Fold<D>(facts: seq<Fact<D>>, p: Fact<D> -> bool): Sums {
    if facts == [] then Empty
    else Plus(Fold(facts[..|facts| - 1], p), if p(facts[|facts| - 1]) then One(facts[|facts| - 1]) else Empty)
  }

  function SumOf<D(==)>(groups: seq<Group<D>>, cal: string, dims: D): Sums {
    if groups == [] then Empty
    else
      var g := groups[|groups| - 1];
      Plus(SumOf(groups[..|groups| - 1], cal, dims), if g.cal == cal && g.dims == dims then g.sums else Empty)
  }

  lemma PlusLaws(a: Sums, b: Sums, c: Sums)
    ensures Plus(a, b) == Plus(b, a) && Plus(Plus(a, b), c) == Plus(a, Plus(b, c))
    ensures Plus(a, Empty) == a && Plus(Empty, a) == a
  {
  }

  lemma PlusSwap(a: Sums, b: Sums, c: Sums, d: Sums)
    ensures Plus(Plus(a, b), Plus(c, d)) == Plus(Plus(a, c), Plus(b, d))
  {
  }

  /** The facts that satisfy `p`, in order. */
  ghost function Chosen<D>(facts: seq<Fact<D>>, p: Fact<D> -> bool): seq<Fact<D>> {
    if facts == [] then []
    else Chosen(facts[..|facts| - 1], p) + (if p(facts[|facts| - 1]) then [facts[|facts| - 1]] else [])
  }

  function InputOf(t: Tokens): int { t.input }

  function OutputOf(t: Tokens): int { t.output }

  function ReadOf(t: Tokens): int { t.read }

  function WrittenOf(t: Tokens): int { t.write }

  ghost function Adds<D>(facts: seq<Fact<D>>, of: Tokens -> int): int {
    if facts == [] then 0 else Adds(facts[..|facts| - 1], of) + of(facts[|facts| - 1].tokens)
  }

  /** What a fold is expected to say of the facts it counted. */
  ghost predicate Means<D(!new)>(s: Sums, chosen: seq<Fact<D>>) {
    && (s.Empty? <==> chosen == [])
    && (s.Sums? ==>
          && s.messages == |chosen|
          && s.tokens == Tokens(Adds(chosen, InputOf), Adds(chosen, OutputOf), Adds(chosen, ReadOf), Adds(chosen, WrittenOf))
          && Spans(s, chosen))
  }

  ghost predicate Spans<D(!new)>(s: Sums, chosen: seq<Fact<D>>)
    requires s.Sums?
  {
    && (forall f :: f in chosen ==> s.first <= f.time <= s.last)
    && (exists f :: f in chosen && f.time == s.first) && (exists f :: f in chosen && f.time == s.last)
  }

  /** A fold counts its facts, adds up each kind of their tokens, and spans their times. */
  lemma {:induction false} FoldMeans<D(!new)>(facts: seq<Fact<D>>, p: Fact<D> -> bool)
    ensures Means(Fold(facts, p), Chosen(facts, p))
  {
    if facts != [] {
      var most, f := facts[..|facts| - 1], facts[|facts| - 1];
      FoldMeans(most, p);
      if p(f) {
        MeansMore(Fold(most, p), Chosen(most, p), f);
      } else {
        assert Chosen(most, p) + [] == Chosen(most, p);
      }
    }
  }

  lemma MeansMore<D(!new)>(s: Sums, chosen: seq<Fact<D>>, f: Fact<D>)
    requires Means(s, chosen)
    ensures Means(Plus(s, One(f)), chosen + [f])
  {
    AddsOne(chosen, f, InputOf);
    AddsOne(chosen, f, OutputOf);
    AddsOne(chosen, f, ReadOf);
    AddsOne(chosen, f, WrittenOf);
    SpansMore(chosen, f, s);
    hide Spans;
  }

  lemma AddsOne<D(!new)>(facts: seq<Fact<D>>, f: Fact<D>, of: Tokens -> int)
    ensures Adds(facts + [f], of) == Adds(facts, of) + of(f.tokens)
    ensures facts == [] ==> Adds(facts, of) == 0
  {
    assert (facts + [f])[..|facts|] == facts;
  }

  lemma SpansMore<D(!new)>(facts: seq<Fact<D>>, f: Fact<D>, s: Sums)
    requires (s.Empty? <==> facts == []) && (s.Sums? ==> Spans(s, facts))
    ensures Spans(Plus(s, One(f)), facts + [f])
  {
    var more, r := facts + [f], Plus(s, One(f));
    assert f in more && forall g :: g in facts ==> g in more;
    if s.Sums? {
      var a :| a in facts && a.time == s.first;
      var b :| b in facts && b.time == s.last;
      assert a in more && b in more;
    }
  }

  /** Facts counted by one of two exclusive conditions. */
  lemma {:induction false} FoldSplit<D(!new)>(facts: seq<Fact<D>>, p: Fact<D> -> bool, q: Fact<D> -> bool, r: Fact<D> -> bool)
    requires forall f :: f in facts ==> !(p(f) && q(f)) && r(f) == (p(f) || q(f))
    ensures Fold(facts, r) == Plus(Fold(facts, p), Fold(facts, q))
  {
    if facts != [] {
      var most, f := facts[..|facts| - 1], facts[|facts| - 1];
      FoldSplit(most, p, q, r);
      PlusSwap(Fold(most, p), Fold(most, q), if p(f) then One(f) else Empty, if q(f) then One(f) else Empty);
      assert f in facts;
    }
  }

  lemma {:induction false} FoldNone<D(!new)>(facts: seq<Fact<D>>, p: Fact<D> -> bool)
    requires forall f :: f in facts ==> !p(f)
    ensures Fold(facts, p) == Empty
  {
    if facts != [] {
      assert facts[|facts| - 1] in facts;
      FoldNone(facts[..|facts| - 1], p);
    }
  }

  lemma {:induction false} FoldSame<D(!new)>(facts: seq<Fact<D>>, p: Fact<D> -> bool, q: Fact<D> -> bool)
    requires forall f :: f in facts ==> p(f) == q(f)
    ensures Fold(facts, p) == Fold(facts, q)
  {
    if facts != [] {
      assert facts[|facts| - 1] in facts;
      FoldSame(facts[..|facts| - 1], p, q);
    }
  }

  lemma SumOfAppend<D>(groups: seq<Group<D>>, g: Group<D>, cal: string, dims: D)
    ensures SumOf(groups + [g], cal, dims)
         == Plus(SumOf(groups, cal, dims), if g.cal == cal && g.dims == dims then g.sums else Empty)
  {
    assert (groups + [g])[..|groups|] == groups;
  }

  // ---- calendar labels ----

  /** A label covers one stretch of time. */
  ghost predicate Contiguous(cal: int -> string) {
    forall a, b, c :: a <= b <= c && cal(a) == cal(c) ==> cal(b) == cal(a)
  }

  ghost predicate Uniform(cal: int -> string, r: LabelRange) {
    r.start < r.end && forall t :: r.start <= t < r.end ==> cal(t) == r.cal
  }

  /** Ranges that follow on from one another over [start, end), each under its own label. */
  ghost predicate Partition(out: seq<LabelRange>, start: int, end: int, cal: int -> string) {
    && (forall i :: 0 <= i < |out| ==> Uniform(cal, out[i]))
    && (forall i :: 0 < i < |out| ==> out[i].start == out[i - 1].end && out[i].cal != out[i - 1].cal)
    && (if out == [] then end <= start else out[0].start == start && out[|out| - 1].end == end)
  }

  lemma PartitionNone(at: int, cal: int -> string)
    ensures Partition([], at, at, cal)
  {
  }

  lemma PartitionEmpty(start: int, end: int, cal: int -> string)
    requires end <= start
    ensures Partition([], start, end, cal)
  {
  }

  lemma PartitionAppend(out: seq<LabelRange>, start: int, r: LabelRange, cal: int -> string)
    requires Partition(out, start, r.start, cal) && Uniform(cal, r)
    requires if out == [] then r.start == start else out[|out| - 1].cal != r.cal
    ensures Partition(out + [r], start, r.end, cal)
  {
  }

  lemma UniformBetween(cal: int -> string, a: int, c: int)
    requires Contiguous(cal) && a <= c && cal(a) == cal(c)
    ensures Uniform(cal, LabelRange(a, c + 1, cal(a)))
  {
  }

  /** The calendar ranges of [start, end), found by bisection. */
  method SplitByLabel(start: int, end: int, cal: int -> string) returns (out: seq<LabelRange>)
    requires Contiguous(cal)
    ensures Partition(out, start, end, cal)
  {
    hide Contiguous, Partition;
    out := [];
    var at := start;
    PartitionNone(start, cal);
    if end <= start {
      PartitionEmpty(start, end, cal);
      return;
    }
    while at < end
      invariant Partition(out, start, at, cal) && (out == [] ==> at == start) && at <= end
      invariant out != [] && at < end ==> out[|out| - 1].cal != cal(at)
      decreases end - at
    {
      var name := cal(at);
      if cal(end - 1) == name {
        UniformBetween(cal, at, end - 1);
        PartitionAppend(out, start, LabelRange(at, end, name), cal);
        out := out + [LabelRange(at, end, name)];
        return;
      }
      var lo, hi := at, end - 1;
      while hi - lo > 1
        invariant at <= lo < hi < end && cal(lo) == name && cal(hi) != name
      {
        var mid := lo + (hi - lo) / 2;
        if cal(mid) == name {
          lo := mid;
        } else {
          hi := mid;
        }
      }
      UniformBetween(cal, at, lo);
      PartitionAppend(out, start, LabelRange(at, hi, name), cal);
      out := out + [LabelRange(at, hi, name)];
      at := hi;
    }
  }

  // ---- rows ----

  predicate InRow<D(==)>(r: HourRow<D>, f: Fact<D>) { r.bucket <= f.time < r.bucket + HOUR && f.dims == r.dims }

  /** The maintained rows: each the fold of its hour and group, each once, and one for every fact. */
  ghost predicate RollsUp<D(!new)>(rows: seq<HourRow<D>>, facts: seq<Fact<D>>) {
    && (forall i :: 0 <= i < |rows| ==> rows[i].bucket % HOUR == 0 && !rows[i].sums.Empty? && rows[i].sums == Fold(facts, f => InRow(rows[i], f)))
    && (forall i, j :: 0 <= i < j < |rows| ==> rows[i].bucket != rows[j].bucket || rows[i].dims != rows[j].dims)
    && (forall f :: f in facts ==> exists i :: 0 <= i < |rows| && InRow(rows[i], f))
  }

  lemma RowsApart<D(!new)>(a: HourRow<D>, b: HourRow<D>, f: Fact<D>)
    requires a.bucket % HOUR == 0 && b.bucket % HOUR == 0 && InRow(a, f) && InRow(b, f)
    ensures a.bucket == b.bucket && a.dims == b.dims
  {
  }

  /** The first whole hour of the range. */
  function Edge(since: int): int { if since % HOUR == 0 then since else since - since % HOUR + HOUR }

  /** A row read as it is: its hour lies in the range and under one label. */
  predicate Clean(bucket: int, since: int, cal: int -> string) {
    bucket >= Edge(since) && cal(bucket) == cal(bucket + HOUR - 1)
  }

  /** A row is read as it is exactly when every instant of its hour is in range and under one label. */
  lemma CleanIs(bucket: int, since: int, cal: int -> string)
    requires Contiguous(cal) && bucket % HOUR == 0
    ensures Clean(bucket, since, cal) <==> forall t :: bucket <= t < bucket + HOUR ==> t >= since && cal(t) == cal(bucket)
  {
    assert bucket >= Edge(since) <==> bucket >= since;
    if Clean(bucket, since, cal) {
      forall t | bucket <= t < bucket + HOUR
        ensures t >= since && cal(t) == cal(bucket)
      {
        assert bucket <= t <= bucket + HOUR - 1 && cal(bucket) == cal(bucket + HOUR - 1);
      }
    }
    if forall t :: bucket <= t < bucket + HOUR ==> t >= since && cal(t) == cal(bucket) {
      var last := bucket + HOUR - 1;
      assert cal(last) == cal(bucket) && cal(bucket) == cal(bucket);
    }
  }

  // ---- the window ----

  /** Every request of the range, under its own label. */
  ghost predicate Exact<D(!new)>(groups: seq<Group<D>>, facts: seq<Fact<D>>, since: int, cal: int -> string) {
    forall name, dims :: SumOf(groups, name, dims) ==
      Fold(facts, Named(InRange(since), cal, name, dims))
  }

  ghost function InRange<D(!new)>(since: int): Fact<D> -> bool { (f: Fact<D>) => f.time >= since }

  /** The facts some clean row among the first `i` covers. */
  ghost function InClean<D(!new)>(rows: seq<HourRow<D>>, i: nat, since: int, cal: int -> string): Fact<D> -> bool
    requires i <= |rows|
  {
    f => exists j :: 0 <= j < i && Clean(rows[j].bucket, since, cal) && InRow(rows[j], f)
  }

  ghost function Named<D(!new)>(p: Fact<D> -> bool, cal: int -> string, name: string, dims: D): Fact<D> -> bool {
    f => p(f) && cal(f.time) == name && f.dims == dims
  }

  /** A clean row adds exactly its facts, all under its label. */
  lemma CleanRow<D(!new)>(rows: seq<HourRow<D>>, facts: seq<Fact<D>>, i: nat, since: int, cal: int -> string,
                          name: string, dims: D)
    requires RollsUp(rows, facts) && i < |rows| && Contiguous(cal) && Clean(rows[i].bucket, since, cal)
    ensures Fold(facts, Named(InClean(rows, i + 1, since, cal), cal, name, dims))
         == Plus(Fold(facts, Named(InClean(rows, i, since, cal), cal, name, dims)),
                 if cal(rows[i].bucket) == name && rows[i].dims == dims then rows[i].sums else Empty)
  {
    var r := rows[i];
    var before, after := InClean(rows, i, since, cal), InClean(rows, i + 1, since, cal);
    var mine := (f: Fact<D>) => InRow(r, f) && cal(f.time) == name && f.dims == dims;
    forall f | f in facts
      ensures after(f) == (before(f) || InRow(r, f)) && !(before(f) && InRow(r, f))
      ensures InRow(r, f) ==> cal(f.time) == cal(r.bucket)
    {
      if before(f) && InRow(r, f) {
        var j :| 0 <= j < i && Clean(rows[j].bucket, since, cal) && InRow(rows[j], f);
        RowsApart(rows[j], r, f);
      }
      if InRow(r, f) {
        assert cal(r.bucket) == cal(r.bucket + HOUR - 1);
      }
    }
    FoldSplit(facts, Named(before, cal, name, dims), mine, Named(after, cal, name, dims));
    if cal(r.bucket) == name && r.dims == dims {
      FoldSame(facts, mine, f => InRow(r, f));
      FoldSame(facts, f => InRow(r, f), f => InRow(rows[i], f));
    } else {
      FoldNone(facts, mine);
    }
  }

  /** Any other row adds nothing. */
  lemma OtherRow<D(!new)>(rows: seq<HourRow<D>>, facts: seq<Fact<D>>, i: nat, since: int, cal: int -> string,
                          name: string, dims: D)
    requires i < |rows| && !Clean(rows[i].bucket, since, cal)
    ensures Fold(facts, Named(InClean(rows, i + 1, since, cal), cal, name, dims))
         == Fold(facts, Named(InClean(rows, i, since, cal), cal, name, dims))
  {
    FoldSame(facts, Named(InClean(rows, i + 1, since, cal), cal, name, dims),
             Named(InClean(rows, i, since, cal), cal, name, dims));
  }

  ghost predicate CleanSums<D(!new)>(groups: seq<Group<D>>, rows: seq<HourRow<D>>, facts: seq<Fact<D>>, i: nat, since: int,
                               cal: int -> string)
    requires i <= |rows|
  {
    forall name, dims :: SumOf(groups, name, dims) == Fold(facts, Named(InClean(rows, i, since, cal), cal, name, dims))
  }

  /** Reads the whole hours, and collects the hours that need their facts. */
  method ReadRows<D(==, !new)>(rows: seq<HourRow<D>>, ghost facts: seq<Fact<D>>, since: int, cal: int -> string)
    returns (groups: seq<Group<D>>, boundaries: set<int>)
    requires RollsUp(rows, facts) && Contiguous(cal)
    ensures CleanSums(groups, rows, facts, |rows|, since, cal)
    ensures boundaries == set r | r in rows && since - since % HOUR <= r.bucket && !Clean(r.bucket, since, cal) :: r.bucket
    ensures forall i :: 0 <= i < |groups| ==> !groups[i].sums.Empty?
  {
    groups, boundaries := [], {};
    forall name, dims
      ensures SumOf(groups, name, dims) == Fold(facts, Named(InClean(rows, 0, since, cal), cal, name, dims))
    {
      FoldNone(facts, Named(InClean(rows, 0, since, cal), cal, name, dims));
    }
    for i := 0 to |rows|
      invariant CleanSums(groups, rows, facts, i, since, cal)
      invariant forall j :: 0 <= j < |groups| ==> !groups[j].sums.Empty?
      invariant boundaries == set j | 0 <= j < i && since - since % HOUR <= rows[j].bucket
                                      && !Clean(rows[j].bucket, since, cal) :: rows[j].bucket
    {
      var r := rows[i];
      ghost var before := groups;
      if r.bucket >= since - since % HOUR {
        if r.bucket < Edge(since) || cal(r.bucket) != cal(r.bucket + HOUR - 1) {
          boundaries := boundaries + {r.bucket};
        } else {
          groups := groups + [Group(cal(r.bucket), r.dims, r.sums)];
        }
      }
      forall name, dims
        ensures SumOf(groups, name, dims) == Fold(facts, Named(InClean(rows, i + 1, since, cal), cal, name, dims))
      {
        if Clean(r.bucket, since, cal) {
          CleanRow(rows, facts, i, since, cal, name, dims);
          SumOfAppend(before, Group(cal(r.bucket), r.dims, r.sums), name, dims);
        } else {
          OtherRow(rows, facts, i, since, cal, name, dims);
        }
      }
    }
  }

  // ---- boundary hours ----

  predicate In(r: LabelRange, t: int) { r.start <= t < r.end }

  /** In order, apart, each under its own label. */
  ghost predicate Ranges(rs: seq<LabelRange>, cal: int -> string) {
    && (forall i :: 0 <= i < |rs| ==> Uniform(cal, rs[i]))
    && (forall i, j :: 0 <= i < j < |rs| ==> rs[i].end <= rs[j].start)
  }

  ghost predicate Covered(rs: seq<LabelRange>, t: int) { exists i :: 0 <= i < |rs| && In(rs[i], t) }

  /** The time of the boundary hours that lies in the range. */
  ghost predicate InBuckets(buckets: seq<int>, since: int, t: int) {
    exists i :: 0 <= i < |buckets| && Max(buckets[i], since) <= t < buckets[i] + HOUR
  }

  ghost predicate Buckets(buckets: seq<int>) {
    && (forall i :: 0 <= i < |buckets| ==> buckets[i] % HOUR == 0)
    && (forall i, j :: 0 <= i < j < |buckets| ==> buckets[i] < buckets[j])
  }

  lemma {:induction false} PartitionRanges(out: seq<LabelRange>, start: int, end: int, cal: int -> string)
    requires Partition(out, start, end, cal)
    ensures Ranges(out, cal) && forall t :: Covered(out, t) <==> start <= t < end
    ensures forall i :: 0 <= i < |out| ==> start <= out[i].start && out[i].end <= end
  {
    if out != [] {
      var most, last := out[..|out| - 1], out[|out| - 1];
      PartitionMost(out, start, end, cal);
      PartitionRanges(most, start, last.start, cal);
      hide Partition, Covered, Uniform, Ranges;
      assert out == most + [last];
      RangesAppend(most, last, cal);
      CoveredConcat(most, [last]);
      CoveredOne(last);
      forall t
        ensures Covered(out, t) <==> start <= t < end
      {
        assert Covered(out, t) <==> Covered(most, t) || Covered([last], t);
        UniformLong(cal, last);
      }
    }
  }

  lemma RangesAppend(rs: seq<LabelRange>, r: LabelRange, cal: int -> string)
    requires Ranges(rs, cal) && Uniform(cal, r) && forall i :: 0 <= i < |rs| ==> rs[i].end <= r.start
    ensures Ranges(rs + [r], cal)
  {
    hide Uniform;
  }

  lemma PartitionMost(out: seq<LabelRange>, start: int, end: int, cal: int -> string)
    requires out != [] && Partition(out, start, end, cal)
    ensures Partition(out[..|out| - 1], start, out[|out| - 1].start, cal)
    ensures Uniform(cal, out[|out| - 1]) && start <= out[|out| - 1].start && out[|out| - 1].end == end
    decreases |out|
  {
    hide Uniform;
    var most := out[..|out| - 1];
    if most != [] {
      PartitionMost(most, start, most[|most| - 1].end, cal);
      assert Uniform(cal, out[|most| - 1]);
      UniformLong(cal, out[|most| - 1]);
    }
  }

  lemma UniformLong(cal: int -> string, r: LabelRange)
    requires Uniform(cal, r)
    ensures r.start < r.end
  {
  }

  lemma CoveredOne(r: LabelRange)
    ensures forall t :: Covered([r], t) <==> In(r, t)
  {
    forall t
      ensures Covered([r], t) <==> In(r, t)
    {
      if In(r, t) {
        assert In([r][0], t);
      }
    }
  }

  lemma CoveredConcat(a: seq<LabelRange>, b: seq<LabelRange>)
    ensures forall t :: Covered(a + b, t) <==> Covered(a, t) || Covered(b, t)
  {
    forall t
      ensures Covered(a + b, t) <==> Covered(a, t) || Covered(b, t)
    {
      if Covered(a, t) {
        var i :| 0 <= i < |a| && In(a[i], t);
        assert In((a + b)[i], t);
      }
      if Covered(b, t) {
        var i :| 0 <= i < |b| && In(b[i], t);
        assert In((a + b)[|a| + i], t);
      }
    }
  }

  /** The calendar ranges of the boundary hours, from the cutoff on. */
  method BoundaryRanges(buckets: seq<int>, since: int, cal: int -> string) returns (boundary: seq<LabelRange>)
    requires Buckets(buckets) && Contiguous(cal)
    ensures Ranges(boundary, cal) && forall t :: Covered(boundary, t) <==> InBuckets(buckets, since, t)
  {
    hide Contiguous, Partition, Covered, InBuckets, Ranges;
    boundary := [];
    NoRanges(since, cal);
    for i := 0 to |buckets|
      invariant Ranges(boundary, cal) && forall t :: Covered(boundary, t) <==> InBuckets(buckets[..i], since, t)
      invariant forall j :: 0 <= j < |boundary| && i < |buckets| ==> boundary[j].end <= buckets[i]
    {
      var split := SplitByLabel(Max(buckets[i], since), buckets[i] + HOUR, cal);
      PartitionRanges(split, Max(buckets[i], since), buckets[i] + HOUR, cal);
      CoveredConcat(boundary, split);
      RangesConcat(boundary, split, cal);
      ghost var next := buckets[..i + 1];
      forall t
        ensures Covered(boundary + split, t) <==> InBuckets(next, since, t)
      {
        BucketNext(buckets, i, since, t);
      }
      assert i + 1 < |buckets| ==> buckets[i] + HOUR <= buckets[i + 1];
      boundary := boundary + split;
    }
    assert buckets[..|buckets|] == buckets;
  }

  lemma NoRanges(since: int, cal: int -> string)
    ensures Ranges([], cal) && forall t :: !Covered([], t) && !InBuckets([], since, t)
  {
  }

  lemma RangesConcat(a: seq<LabelRange>, b: seq<LabelRange>, cal: int -> string)
    requires Ranges(a, cal) && Ranges(b, cal)
    requires forall i, j :: 0 <= i < |a| && 0 <= j < |b| ==> a[i].end <= b[j].start
    ensures Ranges(a + b, cal)
  {
  }

  lemma BucketNext(buckets: seq<int>, i: nat, since: int, t: int)
    requires Buckets(buckets) && i < |buckets|
    ensures InBuckets(buckets[..i + 1], since, t) <==>
              InBuckets(buckets[..i], since, t) || Max(buckets[i], since) <= t < buckets[i] + HOUR
  {
    var a, b := buckets[..i], buckets[..i + 1];
    if InBuckets(a, since, t) {
      var j :| 0 <= j < |a| && Max(a[j], since) <= t < a[j] + HOUR;
      assert b[j] == a[j];
    }
    if Max(buckets[i], since) <= t < buckets[i] + HOUR {
      assert b[i] == buckets[i];
    }
    if InBuckets(b, since, t) {
      var j :| 0 <= j < |b| && Max(b[j], since) <= t < b[j] + HOUR;
      assert j < i ==> a[j] == b[j];
    }
  }

  ghost function InRanges<D(!new)>(rs: seq<LabelRange>): Fact<D> -> bool { (f: Fact<D>) => Covered(rs, f.time) }

  ghost function InOne<D(!new)>(r: LabelRange): Fact<D> -> bool { (f: Fact<D>) => In(r, f.time) }

  /** The facts of the ranges, each under its range's label. */
  method ReadRanges<D(==, !new)>(rs: seq<LabelRange>, facts: seq<Fact<D>>, ghost cal: int -> string) returns (read: seq<Group<D>>)
    requires Ranges(rs, cal)
    ensures forall name, dims :: SumOf(read, name, dims) == Fold(facts, Named(InRanges(rs), cal, name, dims))
  {
    read := [];
    forall name, dims
      ensures SumOf(read, name, dims) == Fold(facts, Named(InRanges(rs[..0]), cal, name, dims))
    {
      FoldNone(facts, Named(InRanges(rs[..0]), cal, name, dims));
    }
    for i := 0 to |rs|
      invariant forall name, dims :: SumOf(read, name, dims) == Fold(facts, Named(InRanges(rs[..i]), cal, name, dims))
    {
      ghost var before := read;
      var more := ReadRange(rs[i], facts, cal);
      read := read + more;
      forall name, dims
        ensures SumOf(read, name, dims) == Fold(facts, Named(InRanges(rs[..i + 1]), cal, name, dims))
      {
        SumOfConcat(before, more, name, dims);
        RangeNext(rs, i, facts, cal, name, dims);
      }
    }
    assert rs[..|rs|] == rs;
  }

  lemma RangeNext<D(!new)>(rs: seq<LabelRange>, i: nat, facts: seq<Fact<D>>, cal: int -> string, name: string, dims: D)
    requires Ranges(rs, cal) && i < |rs|
    ensures Fold(facts, Named(InRanges(rs[..i + 1]), cal, name, dims))
         == Plus(Fold(facts, Named(InRanges(rs[..i]), cal, name, dims)), Fold(facts, Named(InOne(rs[i]), cal, name, dims)))
  {
    assert rs[..i + 1] == rs[..i] + [rs[i]];
    CoveredConcat(rs[..i], [rs[i]]);
    CoveredOne(rs[i]);
    forall t
      ensures !(Covered(rs[..i], t) && In(rs[i], t))
    {
      if Covered(rs[..i], t) {
        var j :| 0 <= j < |rs[..i]| && In(rs[..i][j], t);
        assert rs[j].end <= rs[i].start;
      }
    }
    FoldSplit(facts, Named(InRanges(rs[..i]), cal, name, dims), Named(InOne(rs[i]), cal, name, dims),
              Named(InRanges(rs[..i + 1]), cal, name, dims));
  }

  method ReadRange<D(==, !new)>(r: LabelRange, facts: seq<Fact<D>>, ghost cal: int -> string) returns (read: seq<Group<D>>)
    requires Uniform(cal, r)
    ensures forall name, dims :: SumOf(read, name, dims) == Fold(facts, Named(InOne(r), cal, name, dims))
  {
    read := [];
    for i := 0 to |facts|
      invariant forall name, dims :: SumOf(read, name, dims) == Fold(facts[..i], Named(InOne(r), cal, name, dims))
    {
      var f := facts[i];
      ghost var before := read;
      assert facts[..i + 1][..i] == facts[..i];
      if r.start <= f.time < r.end {
        read := read + [Group(r.cal, f.dims, One(f))];
        forall name, dims
          ensures SumOf(read, name, dims) == Fold(facts[..i + 1], Named(InOne(r), cal, name, dims))
        {
          SumOfAppend(before, Group(r.cal, f.dims, One(f)), name, dims);
        }
      } else {
        assert forall name, dims :: !Named(InOne(r), cal, name, dims)(f);
      }
    }
    assert facts[..|facts|] == facts;
  }

  lemma {:induction false} SumOfConcat<D>(a: seq<Group<D>>, b: seq<Group<D>>, name: string, dims: D)
    ensures SumOf(a + b, name, dims) == Plus(SumOf(a, name, dims), SumOf(b, name, dims))
  {
    if b == [] {
      assert a + b == a;
    } else {
      var g := b[|b| - 1];
      assert (a + b)[..|a + b| - 1] == a + b[..|b| - 1];
      SumOfConcat(a, b[..|b| - 1], name, dims);
      PlusLaws(SumOf(a, name, dims), SumOf(b[..|b| - 1], name, dims), if g.cal == name && g.dims == dims then g.sums else Empty);
    }
  }

  // ---- the whole window ----

  lemma RowFor<D(!new)>(rows: seq<HourRow<D>>, facts: seq<Fact<D>>, f: Fact<D>) returns (i: nat)
    requires RollsUp(rows, facts) && f in facts
    ensures i < |rows| && InRow(rows[i], f) && rows[i].bucket % HOUR == 0
  {
    i :| 0 <= i < |rows| && InRow(rows[i], f);
  }

  lemma CleanOf<D(!new)>(rows: seq<HourRow<D>>, facts: seq<Fact<D>>, since: int, cal: int -> string, r: HourRow<D>, f: Fact<D>)
    requires RollsUp(rows, facts) && r in rows && InRow(r, f)
    ensures InClean(rows, |rows|, since, cal)(f) == Clean(r.bucket, since, cal)
  {
    if InClean(rows, |rows|, since, cal)(f) {
      var j :| 0 <= j < |rows| && Clean(rows[j].bucket, since, cal) && InRow(rows[j], f);
      RowsApart(rows[j], r, f);
    }
  }

  lemma BucketOf(buckets: seq<int>, since: int, bucket: int, t: int)
    requires Buckets(buckets) && bucket % HOUR == 0 && bucket <= t < bucket + HOUR
    ensures InBuckets(buckets, since, t) == (bucket in buckets && since <= t)
  {
    if bucket in buckets && since <= t {
      var k :| 0 <= k < |buckets| && buckets[k] == bucket;
      assert Max(buckets[k], since) <= t < buckets[k] + HOUR;
    }
    if InBuckets(buckets, since, t) {
      var k :| 0 <= k < |buckets| && Max(buckets[k], since) <= t < buckets[k] + HOUR;
      assert buckets[k] % HOUR == 0;
    }
  }

  /** A request of the range is in a clean hour or in a boundary hour, never in both. */
  lemma EitherHour<D(!new)>(rows: seq<HourRow<D>>, facts: seq<Fact<D>>, since: int, cal: int -> string, buckets: seq<int>, f: Fact<D>)
    requires RollsUp(rows, facts) && f in facts && Buckets(buckets)
    requires forall b :: b in buckets <==>
               exists r :: r in rows && r.bucket == b && since - since % HOUR <= b && !Clean(b, since, cal)
    ensures (f.time >= since) == (InClean(rows, |rows|, since, cal)(f) || InBuckets(buckets, since, f.time))
    ensures !(InClean(rows, |rows|, since, cal)(f) && InBuckets(buckets, since, f.time))
  {
    var i := RowFor(rows, facts, f);
    var r := rows[i];
    CleanOf(rows, facts, since, cal, r, f);
    BucketOf(buckets, since, r.bucket, f.time);
    hide RollsUp, Buckets, InClean, InBuckets;
    assert r.bucket in buckets <==> since - since % HOUR <= r.bucket && !Clean(r.bucket, since, cal);
    assert f.time >= since ==> since - since % HOUR <= r.bucket;
  }

  function Identity(n: int): int { n }

  method Some<T(==)>(s: set<T>) returns (x: T)
    requires s != {}
    ensures x in s
  {
    x :| x in s;
  }

  method SortBuckets(all: set<int>) returns (buckets: seq<int>)
    requires forall b :: b in all ==> b % HOUR == 0
    ensures Buckets(buckets) && forall b :: b in buckets <==> b in all
  {
    var rest: set<int>, found: seq<int> := all, [];
    while rest != {}
      invariant rest <= all
      invariant forall b :: b in found <==> b in all && b !in rest
      invariant forall i, j :: 0 <= i < j < |found| ==> found[i] != found[j]
    {
      var b := Some(rest);
      found := found + [b];
      rest := rest - {b};
    }
    SortKeeps(found, Identity);
    buckets := SortBy(found, Identity);
    SortDistinct(found);
    forall i, j | 0 <= i < j < |buckets|
      ensures buckets[i] < buckets[j]
    {
      assert Identity(buckets[i]) <= Identity(buckets[j]);
    }
    forall i | 0 <= i < |buckets|
      ensures buckets[i] % HOUR == 0
    {
      assert buckets[i] in buckets;
    }
  }

  ghost predicate DistinctInts(xs: seq<int>) { forall i, j :: 0 <= i < j < |xs| ==> xs[i] != xs[j] }

  lemma {:induction false} InsertDistinct(xs: seq<int>, x: int)
    requires DistinctInts(xs) && x !in xs && SortedBy(xs, Identity)
    ensures DistinctInts(Insert(xs, x, Identity))
  {
    if xs != [] && xs[|xs| - 1] > x {
      var most, last := xs[..|xs| - 1], xs[|xs| - 1];
      InsertDistinct(most, x);
      InsertKeeps(most, x, Identity);
      assert last !in most && xs == most + [last];
      var r := Insert(most, x, Identity);
      assert last !in r;
    }
  }

  lemma {:induction false} SortDistinct(xs: seq<int>)
    requires DistinctInts(xs)
    ensures DistinctInts(SortBy(xs, Identity))
  {
    if xs != [] {
      var most, last := xs[..|xs| - 1], xs[|xs| - 1];
      SortDistinct(most);
      SortKeeps(most, Identity);
      assert last !in most;
      InsertDistinct(SortBy(most, Identity), last);
    }
  }

  /**
   Whole-hour rows and exact facts together count every request from the cutoff on exactly
   once, under its own label, and none before it.
   */
  method LoadWindow<D(==, !new)>(rows: seq<HourRow<D>>, facts: seq<Fact<D>>, cutoff: int, cal: int -> string)
    returns (groups: seq<Group<D>>, boundary: seq<LabelRange>)
    requires RollsUp(rows, facts) && Contiguous(cal)
    ensures Exact(groups, facts, Max(0, cutoff), cal)
    ensures Ranges(boundary, cal)
  {
    var since := Max(0, cutoff);
    var clean, boundaries := ReadRows(rows, facts, since, cal);
    var buckets := SortBuckets(boundaries);
    boundary := BoundaryRanges(buckets, since, cal);
    var read := ReadRanges(boundary, facts, cal);
    groups := clean + read;
    WindowExact(rows, facts, since, cal, buckets, boundary, clean, read);
  }

  lemma WindowExact<D(!new)>(rows: seq<HourRow<D>>, facts: seq<Fact<D>>, since: int, cal: int -> string, buckets: seq<int>,
                             boundary: seq<LabelRange>, clean: seq<Group<D>>, read: seq<Group<D>>)
    requires RollsUp(rows, facts) && Buckets(buckets)
    requires forall b :: b in buckets <==>
               exists r :: r in rows && r.bucket == b && since - since % HOUR <= b && !Clean(b, since, cal)
    requires forall t :: Covered(boundary, t) <==> InBuckets(buckets, since, t)
    requires CleanSums(clean, rows, facts, |rows|, since, cal)
    requires forall name, dims :: SumOf(read, name, dims) == Fold(facts, Named(InRanges(boundary), cal, name, dims))
    ensures Exact(clean + read, facts, since, cal)
  {
    hide RollsUp, Buckets, InClean, InBuckets, Clean, Covered;
    forall f | f in facts
      ensures InRange(since)(f) == (InClean(rows, |rows|, since, cal)(f) || InRanges(boundary)(f))
      ensures !(InClean(rows, |rows|, since, cal)(f) && InRanges(boundary)(f))
    {
      EitherHour(rows, facts, since, cal, buckets, f);
    }
    forall name, dims
      ensures SumOf(clean + read, name, dims) == Fold(facts, Named(InRange(since), cal, name, dims))
    {
      SumOfConcat(clean, read, name, dims);
      FoldSplit(facts, Named(InClean(rows, |rows|, since, cal), cal, name, dims), Named(InRanges(boundary), cal, name, dims),
                Named(InRange(since), cal, name, dims));
    }
  }

  // ---- buckets in a map ----

  /** Adds each group into the one of its key. */
  method Gather<D(==)>(groups: seq<Group<D>>) returns (m: map<(string, D), Sums>)
    requires forall i :: 0 <= i < |groups| ==> !groups[i].sums.Empty?
    ensures forall name, dims :: SumOf(groups, name, dims) == if (name, dims) in m then m[(name, dims)] else Empty
    ensures forall k :: k in m ==> !m[k].Empty?
  {
    m := map[];
    for i := 0 to |groups|
      invariant forall name, dims :: SumOf(groups[..i], name, dims) == if (name, dims) in m then m[(name, dims)] else Empty
      invariant forall k :: k in m ==> !m[k].Empty?
    {
      var g := groups[i];
      var k := (g.cal, g.dims);
      ghost var before := m;
      m := m[k := if k in m then Plus(m[k], g.sums) else g.sums];
      forall name, dims
        ensures SumOf(groups[..i + 1], name, dims) == if (name, dims) in m then m[(name, dims)] else Empty
      {
        assert groups[..i + 1] == groups[..i] + [g];
        SumOfAppend(groups[..i], g, name, dims);
      }
    }
    assert groups[..|groups|] == groups;
  }

  ghost function InHours<D(!new)>(hours: set<int>, since: int): Fact<D> -> bool {
    (f: Fact<D>) => f.time >= since && f.time - f.time % HOUR in hours
  }

  /** The exact facts of some hours from the cutoff on, each under its own label. */
  method ReadFacts<D(==, !new)>(hours: set<int>, facts: seq<Fact<D>>, since: int, cal: int -> string) returns (read: seq<Group<D>>)
    ensures forall name, dims :: SumOf(read, name, dims) == Fold(facts, Named(InHours(hours, since), cal, name, dims))
    ensures forall i :: 0 <= i < |read| ==> !read[i].sums.Empty?
  {
    read := [];
    for i := 0 to |facts|
      invariant forall name, dims :: SumOf(read, name, dims) == Fold(facts[..i], Named(InHours(hours, since), cal, name, dims))
      invariant forall j :: 0 <= j < |read| ==> !read[j].sums.Empty?
    {
      var f := facts[i];
      ghost var before := read;
      assert facts[..i + 1][..i] == facts[..i];
      if f.time >= since && f.time - f.time % HOUR in hours {
        read := read + [Group(cal(f.time), f.dims, One(f))];
        forall name, dims
          ensures SumOf(read, name, dims) == Fold(facts[..i + 1], Named(InHours(hours, since), cal, name, dims))
        {
          SumOfAppend(before, Group(cal(f.time), f.dims, One(f)), name, dims);
        }
      } else {
        assert forall name, dims :: !Named(InHours(hours, since), cal, name, dims)(f);
      }
    }
    assert facts[..|facts|] == facts;
  }

  lemma EitherSource<D(!new)>(rows: seq<HourRow<D>>, facts: seq<Fact<D>>, since: int, cal: int -> string, hours: set<int>, f: Fact<D>)
    requires RollsUp(rows, facts) && f in facts
    requires hours == set r | r in rows && since - since % HOUR <= r.bucket && !Clean(r.bucket, since, cal) :: r.bucket
    ensures (f.time >= since) == (InClean(rows, |rows|, since, cal)(f) || InHours(hours, since)(f))
    ensures !(InClean(rows, |rows|, since, cal)(f) && InHours(hours, since)(f))
  {
    var i := RowFor(rows, facts, f);
    var r := rows[i];
    CleanOf(rows, facts, since, cal, r, f);
    assert r.bucket == f.time - f.time % HOUR;
    hide RollsUp, InClean;
    assert r.bucket in hours <==> since - since % HOUR <= r.bucket && !Clean(r.bucket, since, cal);
    assert f.time >= since ==> since - since % HOUR <= r.bucket;
  }

  /** Whole-hour rows and exact facts in one map: the direct fold of every group, and no other group. */
  method HistoryBuckets<D(==, !new)>(rows: seq<HourRow<D>>, facts: seq<Fact<D>>, cutoff: int, cal: int -> string)
    returns (m: map<(string, D), Sums>)
    requires RollsUp(rows, facts) && Contiguous(cal)
    ensures forall name, dims ::
              Fold(facts, Named(InRange(Max(0, cutoff)), cal, name, dims)) == if (name, dims) in m then m[(name, dims)] else Empty
    ensures forall k :: k in m ==> !m[k].Empty?
  {
    var since := Max(0, cutoff);
    var clean, hours := ReadRows(rows, facts, since, cal);
    var read := ReadFacts(hours, facts, since, cal);
    m := Gather(clean + read);
    hide RollsUp, Contiguous, Clean, InClean, Fold, SumOf;
    forall f | f in facts
      ensures InRange(since)(f) == (InClean(rows, |rows|, since, cal)(f) || InHours(hours, since)(f))
      ensures !(InClean(rows, |rows|, since, cal)(f) && InHours(hours, since)(f))
    {
      EitherSource(rows, facts, since, cal, hours, f);
    }
    forall name, dims
      ensures SumOf(clean + read, name, dims) == Fold(facts, Named(InRange(since), cal, name, dims))
    {
      SumOfConcat(clean, read, name, dims);
      FoldSplit(facts, Named(InClean(rows, |rows|, since, cal), cal, name, dims), Named(InHours(hours, since), cal, name, dims),
                Named(InRange(since), cal, name, dims));
    }
  }

  // ---- the cache ----

  /** No request lies between two cutoffs. */
  predicate NoneBetween<D(==)>(facts: seq<Fact<D>>, from: int, to: int) {
    forall f :: f in facts ==> !(from <= f.time < to)
  }

  function Messages(s: Sums): int { if s.Empty? then 0 else s.messages }

  lemma {:induction false} FoldCounts<D(!new)>(facts: seq<Fact<D>>, p: Fact<D> -> bool)
    ensures Messages(Fold(facts, p)) >= 0
    ensures (exists f :: f in facts && p(f)) ==> Messages(Fold(facts, p)) > 0
  {
    if facts != [] {
      FoldCounts(facts[..|facts| - 1], p);
      assert facts == facts[..|facts| - 1] + [facts[|facts| - 1]];
    }
  }

  /** A window loaded for one cutoff is the window of another exactly when no request lies between. */
  lemma ReuseExact<D(!new)>(groups: seq<Group<D>>, facts: seq<Fact<D>>, a: int, b: int, cal: int -> string)
    requires Exact(groups, facts, a, cal)
    ensures NoneBetween(facts, Min(a, b), Max(a, b)) <==> Exact(groups, facts, b, cal)
  {
    hide Fold, SumOf;
    if NoneBetween(facts, Min(a, b), Max(a, b)) {
      forall name, dims
        ensures SumOf(groups, name, dims) == Fold(facts, Named(InRange(b), cal, name, dims))
      {
        FoldSame(facts, Named(InRange(a), cal, name, dims), Named(InRange(b), cal, name, dims));
      }
    } else {
      var f :| f in facts && Min(a, b) <= f.time < Max(a, b);
      var name, dims := cal(f.time), f.dims;
      var between := (x: Fact<D>) => Min(a, b) <= x.time < Max(a, b);
      FoldSplit(facts, Named(InRange(Max(a, b)), cal, name, dims), Named(between, cal, name, dims),
                Named(InRange(Min(a, b)), cal, name, dims));
      FoldCounts(facts, Named(between, cal, name, dims));
      FoldCounts(facts, Named(InRange(Max(a, b)), cal, name, dims));
      assert Named(between, cal, name, dims)(f);
      assert Fold(facts, Named(InRange(a), cal, name, dims)) != Fold(facts, Named(InRange(b), cal, name, dims));
      assert SumOf(groups, name, dims) == Fold(facts, Named(InRange(a), cal, name, dims));
    }
  }

  const CACHE_ENTRIES: nat := 16

  /** One snapshot's history under one set of calendar, directory and filters. */
  datatype CacheKey = CacheKey(revision: int, zone: string, dir: string, days: int, agent: string, model: string)

  datatype CacheEntry<D> = CacheEntry(since: int, groups: seq<Group<D>>, used: nat)

  datatype Lookup<D> = Miss | Failed | Hit(groups: seq<Group<D>>)

  /** Another entry is kept as it was, and only if its snapshot is as new. */
  ghost predicate Kept<D>(was: map<CacheKey, CacheEntry<D>>, now: map<CacheKey, CacheEntry<D>>, key: CacheKey) {
    forall k :: k in now && k != key ==> k in was && now[k] == was[k] && k.revision >= key.revision
  }

  /** What else was dropped was of an older snapshot, or used no later than anything kept. */
  ghost predicate LeastUsedGone<D>(was: map<CacheKey, CacheEntry<D>>, now: map<CacheKey, CacheEntry<D>>, key: CacheKey) {
    forall k, gone :: k in now && k != key && gone in was && gone !in now ==>
      gone.revision < key.revision || was[gone].used <= now[k].used
  }

  /** The clock is no earlier than any use. */
  ghost predicate UsedBy<D>(entries: map<CacheKey, CacheEntry<D>>, clock: nat) {
    forall k :: k in entries ==> entries[k].used <= clock
  }

  ghost predicate AllExact<D(!new)>(entries: map<CacheKey, CacheEntry<D>>, facts: CacheKey -> seq<Fact<D>>,
                                    cal: CacheKey -> (int -> string)) {
    forall k :: k in entries ==> Exact(entries[k].groups, facts(k), entries[k].since, cal(k))
  }

  lemma ExactNext<D(!new)>(was: map<CacheKey, CacheEntry<D>>, mid: map<CacheKey, CacheEntry<D>>, key: CacheKey, e: CacheEntry<D>,
                           facts: CacheKey -> seq<Fact<D>>, cal: CacheKey -> (int -> string))
    requires AllExact(was, facts, cal) && Exact(e.groups, facts(key), e.since, cal(key))
    requires forall k :: k in mid ==> k in was && mid[k] == was[k]
    ensures AllExact(mid[key := e], facts, cal)
  {
    hide Exact;
  }

  lemma UsedNext<D>(was: map<CacheKey, CacheEntry<D>>, mid: map<CacheKey, CacheEntry<D>>, key: CacheKey, e: CacheEntry<D>, clock: nat)
    requires UsedBy(was, clock) && e.used == clock + 1 && forall k :: k in mid ==> k in was && mid[k] == was[k]
    ensures UsedBy(mid[key := e], clock + 1) && forall k :: k in was ==> was[k].used < e.used
  {
  }

  lemma StoreKeeps<D>(was: map<CacheKey, CacheEntry<D>>, mid: map<CacheKey, CacheEntry<D>>, key: CacheKey, e: CacheEntry<D>)
    requires forall k :: k in mid ==> k in was && mid[k] == was[k] && k.revision >= key.revision
    requires forall k, gone :: k in mid && gone in was && gone.revision >= key.revision && gone !in mid ==>
               was[gone].used <= mid[k].used
    ensures Kept(was, mid[key := e], key) && LeastUsedGone(was, mid[key := e], key)
  {
  }

  class DashboardCache<D(==, !new)> {
    var clock: nat
    var entries: map<CacheKey, CacheEntry<D>>

    /** Every entry is the exact window of its own snapshot and cutoff. */
    ghost predicate Valid(facts: CacheKey -> seq<Fact<D>>, cal: CacheKey -> (int -> string))
      reads this
    {
      && |entries| <= CACHE_ENTRIES
      && UsedBy(entries, clock)
      && AllExact(entries, facts, cal)
    }

    constructor ()
      ensures forall facts, cal :: Valid(facts, cal)
    {
      clock, entries := 0, map[];
    }

    /**
     A cached window, when the probe finds no request of any directory or filter between its
     cutoff and this one; `stored` is every request of the snapshot.
     */
    method Find(key: CacheKey, since: int, stored: seq<Fact<D>>, probeFails: bool,
                ghost facts: CacheKey -> seq<Fact<D>>, ghost cal: CacheKey -> (int -> string)) returns (r: Lookup<D>)
      requires Valid(facts, cal) && forall f :: f in facts(key) ==> f in stored
      modifies this
      ensures Valid(facts, cal)
      ensures r.Hit? ==> key in old(entries) && r.groups == old(entries)[key].groups && Exact(r.groups, facts(key), since, cal(key))
      ensures r.Failed? <==> key in old(entries) && old(entries)[key].since != since && probeFails
      ensures r.Miss? <==>
                || key !in old(entries)
                || (old(entries)[key].since != since && !probeFails
                    && !NoneBetween(stored, Min(old(entries)[key].since, since), Max(old(entries)[key].since, since)))
      ensures entries == if key in old(entries) then old(entries)[key := old(entries)[key].(used := clock)] else old(entries)
      ensures forall k :: k in old(entries) && key in old(entries) ==> old(entries)[k].used < entries[key].used
    {
      hide Exact;
      if key !in entries {
        return Miss;
      }
      clock := clock + 1;
      entries := entries[key := entries[key].(used := clock)];
      var e := entries[key];
      if e.since == since {
        return Hit(e.groups);
      }
      if probeFails {
        return Failed;
      }
      ReuseExact(e.groups, facts(key), e.since, since, cal(key));
      if NoneBetween(stored, Min(e.since, since), Max(e.since, since)) {
        r := Hit(e.groups);
      } else {
        r := Miss;
      }
    }

    /** Keeps a window, after dropping older snapshots and then the least recently used. */
    method Store(key: CacheKey, since: int, groups: seq<Group<D>>, ghost facts: CacheKey -> seq<Fact<D>>,
                 ghost cal: CacheKey -> (int -> string))
      requires Valid(facts, cal) && Exact(groups, facts(key), since, cal(key))
      modifies this
      ensures Valid(facts, cal)
      ensures key in entries && entries[key].since == since && entries[key].groups == groups
      ensures Kept(old(entries), entries, key) && LeastUsedGone(old(entries), entries, key)
      ensures |entries| <= 16 && forall k :: k in old(entries) ==> old(entries)[k].used < entries[key].used
    {
      hide Exact, Kept, LeastUsedGone, UsedBy, AllExact;
      DropOlder(key.revision);
      MakeRoom();
      UsedNext(old(entries), entries, key, CacheEntry(since, groups, clock + 1), clock);
      ExactNext(old(entries), entries, key, CacheEntry(since, groups, clock + 1), facts, cal);
      clock := clock + 1;
      StoreKeeps(old(entries), entries, key, CacheEntry(since, groups, clock));
      entries := entries[key := CacheEntry(since, groups, clock)];
    }

    /** Drops the least recently used entries until one more fits. */
    method MakeRoom()
      modifies `entries
      ensures |entries| < CACHE_ENTRIES
      ensures forall k :: k in entries ==> k in old(entries) && entries[k] == old(entries)[k]
      ensures forall k, gone :: k in entries && gone in old(entries) && gone !in entries ==>
                old(entries)[gone].used <= entries[k].used
    {
      ghost var was := entries;
      while |entries| >= CACHE_ENTRIES
        invariant forall k :: k in entries ==> k in was && entries[k] == was[k]
        invariant forall k, gone :: k in entries && gone in was && gone !in entries ==> was[gone].used <= entries[k].used
        decreases |entries|
      {
        var oldest := LeastUsed();
        assert entries == (entries - {oldest})[oldest := entries[oldest]];
        entries := entries - {oldest};
      }
    }

    method DropOlder(revision: int)
      modifies `entries
      ensures entries == map k | k in old(entries) && k.revision >= revision :: old(entries)[k]
      ensures |entries| <= |old(entries)|
    {
      ghost var was := entries;
      var rest := entries.Keys;
      while rest != {}
        invariant rest <= was.Keys
        invariant entries == map k | k in was && (k in rest || k.revision >= revision) :: was[k]
      {
        var k :| k in rest;
        if k.revision < revision {
          entries := entries - {k};
        }
        rest := rest - {k};
      }
      Smaller(entries, was);
    }

    method LeastUsed() returns (oldest: CacheKey)
      requires entries != map[]
      ensures oldest in entries && forall k :: k in entries ==> entries[oldest].used <= entries[k].used
    {
      oldest :| oldest in entries;
      var rest := entries.Keys;
      while rest != {}
        invariant rest <= entries.Keys && oldest in entries
        invariant forall k :: k in entries && k !in rest ==> entries[oldest].used <= entries[k].used
      {
        var k :| k in rest;
        if entries[k].used < entries[oldest].used {
          oldest := k;
        }
        rest := rest - {k};
      }
    }
  }

  lemma Smaller<K, V>(a: map<K, V>, b: map<K, V>)
    requires a.Keys <= b.Keys
    ensures |a| <= |b|
  {
    SubsetSize(a.Keys, b.Keys);
    assert |a| == |a.Keys| && |b| == |b.Keys|;
  }

  lemma {:induction false} SubsetSize<T>(a: set<T>, b: set<T>)
    requires a <= b
    ensures |a| <= |b|
    decreases a
  {
    if a != {} {
      var x :| x in a;
      SubsetSize(a - {x}, b - {x});
    }
  }
}

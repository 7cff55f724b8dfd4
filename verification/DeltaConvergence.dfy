/**
 Deltas that are slices of one text, and upserts that carry prefixes of it, keep the
 field a prefix of that text whatever their order and however often they repeat.
 */
module DeltaConvergence {
  import opened Arithmetic
  import opened Events
  import opened Utf16
  import opened StreamContent

  // ---- one field of one text ----

  /** A delta restating `text[i..j]` at the offset where that slice starts. */
  predicate IsSlice(t: string, offset: int, text: string, i: nat, j: nat) {
    i <= j <= |t| && offset == Units(t[..i]) && text == t[i..j]
  }

  /** The cut a delta makes into its own text falls between two scalars. */
  lemma OverlapAligned(t: string, i: nat, n: nat, j: nat)
    requires i <= n <= j <= |t|
    ensures Units(t[..n]) - Units(t[..i]) == Units(t[i..n])
    ensures Aligned(t[i..j], Units(t[i..n])) && Whole(t[i..j], Units(t[i..n])) == n - i
  {
    assert t[..n] == t[..i] + t[i..n];
    UnitsConcat(t[..i], t[i..n]);
    assert t[i..j][..n - i] == t[i..n];
    PrefixAligned(t[i..j], n - i);
  }

  /** An aligned delta extends a prefix to the end of its slice, or is refused past a gap. */
  lemma SliceStep(t: string, n: nat, offset: int, text: string, i: nat, j: nat)
    requires n <= |t| && IsSlice(t, offset, text, i, j)
    ensures DeltaField(NewField(t[..n]), offset, text) == NewField(t[..if i <= n then Max(n, j) else n])
  {
    var cur := NewField(t[..n]);
    EncodeLength(text);
    if n < i {
      UnitsMonotone(t, n, i);
    } else if i == n {
      assert t[..n] + t[i..j] == t[..j];
      UnitsConcat(t[..n], t[i..j]);
    } else {
      UnitsMonotone(t, i, n);
      if j <= n {
        assert t[..n] == t[..i] + (t[i..j] + t[j..n]);
        UnitsConcat(t[..i], t[i..j] + t[j..n]);
        UnitsConcat(t[i..j], t[j..n]);
      } else {
        OverlapStep(t, i, n, j);
      }
    }
  }

  /** Cutting a slice where an earlier prefix ended leaves the unseen tail. */
  lemma OverlapTail(t: string, i: nat, n: nat, j: nat)
    requires i < n < j <= |t|
    ensures Units(t[i..n]) < |Encode(t[i..j])|
    ensures Decode(Encode(t[i..j])[Units(t[i..n])..]) == t[n..j]
  {
    var text := t[i..j];
    EncodeLength(text);
    assert text[..j - i] == text && text[..n - i] == t[i..n] && text[n - i..] == t[n..j];
    UnitsMonotone(text, n - i, j - i);
    OverlapAligned(t, i, n, j);
    CutTail(text, Units(t[i..n]));
  }

  lemma OverlapUnits(t: string, i: nat, n: nat, j: nat)
    requires i < n < j <= |t|
    ensures Units(t[..j]) == Units(t[..n]) + |Encode(t[i..j])| - Units(t[i..n])
    ensures t[..n] + t[n..j] == t[..j]
  {
    EncodeLength(t[i..j]);
    UnitsConcat(t[..n], t[n..j]);
    assert t[..n] + t[n..j] == t[..j];
    UnitsConcat(t[i..n], t[n..j]);
    assert t[i..n] + t[n..j] == t[i..j];
  }

  lemma OverlapStep(t: string, i: nat, n: nat, j: nat)
    requires i < n < j <= |t|
    ensures DeltaField(NewField(t[..n]), Units(t[..i]), t[i..j]) == NewField(t[..j])
  {
    OverlapAligned(t, i, n, j);
    OverlapTail(t, i, n, j);
    OverlapUnits(t, i, n, j);
    UnitsMonotone(t, i, n);
  }

  /** A snapshot never shortens what was built; a longer one extends it. */
  lemma SnapshotStep(t: string, n: nat, m: nat)
    requires n <= |t| && m <= |t|
    ensures UpsertField(Some(NewField(t[..n])), t[..m]) == NewField(t[..Max(n, m)])
  {
    if m < n {
      UnitsMonotone(t, m, n);
    } else {
      UnitsMonotone(t, n, m);
    }
  }

  // ---- one field of the content, over whole runs ----

  ghost predicate IsPrefix(t: string, f: StreamField) {
    exists n: nat :: n <= |t| && f == NewField(t[..n])
  }

  ghost predicate PrefixField(t: string, c: Content, p: string, f: Field) {
    p in c.parts && f in c.parts[p].fields ==> IsPrefix(t, c.parts[p].fields[f])
  }

  ghost predicate Restates(t: string, e: Event, p: string, f: Field) {
    && (e.PartDelta? && e.partId == p && e.field == f ==> exists i: nat, j: nat :: IsSlice(t, e.offset, e.text, i, j))
    && (e.PartUpserted? && e.part.id == p && f in StreamedFields(e.part.data) ==>
          exists m: nat :: m <= |t| && StreamedFields(e.part.data)[f] == t[..m])
  }

  predicate Held(c: Content, p: string, f: Field) { p in c.parts && f in c.parts[p].fields }

  /** The events that may shorten or drop a part: its final upsert and its removals. */
  predicate Resets(e: Event, p: string) {
    || (e.PartUpserted? && e.part.id == p && e.final)
    || (e.PartRemoved? && e.removedPartId == p)
    || e.MessageRemoved?
  }

  lemma PrefixStep(t: string, c: Content, e: Event, p: string, f: Field)
    requires PrefixField(t, c, p, f) && Restates(t, e, p, f)
    ensures PrefixField(t, Apply(c, e), p, f)
    ensures Held(c, p, f) && !Resets(e, p) ==>
              Held(Apply(c, e), p, f) && c.parts[p].fields[f].units <= Apply(c, e).parts[p].fields[f].units
  {
    if e.PartDelta? && e.partId == p && e.field == f && p in c.parts {
      DeltaStep(t, c, e, p, f);
    } else if e.PartUpserted? && e.part.id == p && f in StreamedFields(e.part.data) {
      UpsertStep(t, c, e, p, f);
    }
  }

  lemma DeltaStep(t: string, c: Content, e: Event, p: string, f: Field)
    requires PrefixField(t, c, p, f) && e.PartDelta? && e.partId == p && e.field == f && p in c.parts
    requires Restates(t, e, p, f)
    ensures Held(Apply(c, e), p, f) && IsPrefix(t, Apply(c, e).parts[p].fields[f])
    ensures Held(c, p, f) ==> c.parts[p].fields[f].units <= Apply(c, e).parts[p].fields[f].units
  {
    var i: nat, j: nat :| IsSlice(t, e.offset, e.text, i, j);
    var n: nat := 0;
    if Held(c, p, f) {
      n :| n <= |t| && c.parts[p].fields[f] == NewField(t[..n]);
    }
    SliceStep(t, n, e.offset, e.text, i, j);
    var k := if i <= n then Max(n, j) else n;
    UnitsMonotone(t, n, k);
    var lp := c.parts[p];
    assert (if f in lp.fields then lp.fields[f] else NewField("")) == NewField(t[..n]);
    assert DeltaPart(lp, f, e.offset, e.text).fields[f] == NewField(t[..k]);
  }

  lemma UpsertStep(t: string, c: Content, e: Event, p: string, f: Field)
    requires PrefixField(t, c, p, f) && e.PartUpserted? && e.part.id == p && f in StreamedFields(e.part.data)
    requires Restates(t, e, p, f)
    ensures Held(Apply(c, e), p, f) && IsPrefix(t, Apply(c, e).parts[p].fields[f])
    ensures Held(c, p, f) && !e.final ==> c.parts[p].fields[f].units <= Apply(c, e).parts[p].fields[f].units
  {
    var m: nat :| m <= |t| && StreamedFields(e.part.data)[f] == t[..m];
    var lp := UpsertPart(PartOf(c.parts, p), e.part, e.final);
    if Held(c, p, f) && !e.final {
      var n: nat :| n <= |t| && c.parts[p].fields[f] == NewField(t[..n]);
      SnapshotStep(t, n, m);
      UnitsMonotone(t, n, Max(n, m));
      assert lp.fields[f] == NewField(t[..Max(n, m)]);
    } else {
      assert lp.fields[f] == NewField(t[..m]);
    }
  }

  /**
   Whatever the order and the repetitions, the field stays a prefix of its text, and over
   a run without resets it never gets shorter.
   */
  lemma {:induction false} RunKeepsPrefix(t: string, c: Content, evs: seq<Event>, p: string, f: Field)
    requires PrefixField(t, c, p, f)
    requires forall i :: 0 <= i < |evs| ==> Restates(t, evs[i], p, f)
    ensures PrefixField(t, Folded(c, evs), p, f)
    ensures Held(c, p, f) && (forall i :: 0 <= i < |evs| ==> !Resets(evs[i], p)) ==>
              Held(Folded(c, evs), p, f) && c.parts[p].fields[f].units <= Folded(c, evs).parts[p].fields[f].units
    decreases |evs|
  {
    if evs != [] {
      PrefixStep(t, c, evs[0], p, f);
      RunKeepsPrefix(t, Apply(c, evs[0]), evs[1..], p, f);
    }
  }

  // ---- order does not matter ----

  datatype Piece = Slice(i: nat, j: nat) | Snapshot(m: nat)

  ghost predicate PieceOf(t: string, x: Piece) {
    if x.Slice? then x.i <= x.j <= |t| else x.m <= |t|
  }

  function End(x: Piece): nat { if x.Slice? then x.j else x.m }

  function FieldStep(t: string, f: StreamField, x: Piece): StreamField
    requires PieceOf(t, x)
  {
    match x
    case Slice(i, j) => DeltaField(f, Units(t[..i]), t[i..j])
    case Snapshot(m) => UpsertField(Some(f), t[..m])
  }

  function FieldRun(t: string, f: StreamField, xs: seq<Piece>): StreamField
    requires forall x :: x in xs ==> PieceOf(t, x)
    decreases |xs|
  {
    if xs == [] then f else FieldRun(t, FieldStep(t, f, xs[0]), xs[1..])
  }

  /** The farthest end of any piece. */
  function Farthest(n: nat, xs: seq<Piece>): nat
    decreases |xs|
  {
    if xs == [] then n else Farthest(Max(n, End(xs[0])), xs[1..])
  }

  /** No slice starts past what was built before it. */
  predicate Gapless(n: nat, xs: seq<Piece>)
    decreases |xs|
  {
    xs == [] || ((xs[0].Slice? ==> xs[0].i <= n) && Gapless(Max(n, End(xs[0])), xs[1..]))
  }

  /** Pieces arriving without a gap build the text up to the farthest of them. */
  lemma {:induction false} GaplessRun(t: string, n: nat, xs: seq<Piece>)
    requires n <= |t| && (forall x :: x in xs ==> PieceOf(t, x)) && Gapless(n, xs)
    ensures Farthest(n, xs) <= |t|
    ensures FieldRun(t, NewField(t[..n]), xs) == NewField(t[..Farthest(n, xs)])
    decreases |xs|
  {
    if xs != [] {
      var x := xs[0];
      assert PieceOf(t, x);
      if x.Slice? {
        SliceStep(t, n, Units(t[..x.i]), t[x.i..x.j], x.i, x.j);
      } else {
        SnapshotStep(t, n, x.m);
      }
      GaplessRun(t, Max(n, End(x)), xs[1..]);
    }
  }

  lemma {:induction false} FarthestIs(n: nat, xs: seq<Piece>)
    ensures n <= Farthest(n, xs) && forall x :: x in xs ==> End(x) <= Farthest(n, xs)
    ensures Farthest(n, xs) == n || exists x :: x in xs && Farthest(n, xs) == End(x)
    decreases |xs|
  {
    if xs != [] {
      FarthestIs(Max(n, End(xs[0])), xs[1..]);
    }
  }

  /** Two gapless deliveries of the same pieces, in any order and with any repeats, agree. */
  lemma DeliveriesConverge(t: string, n: nat, xs: seq<Piece>, ys: seq<Piece>)
    requires n <= |t| && (forall x :: x in xs ==> PieceOf(t, x)) && (forall y :: y in ys ==> PieceOf(t, y))
    requires forall x :: x in xs <==> x in ys
    requires Gapless(n, xs) && Gapless(n, ys)
    ensures FieldRun(t, NewField(t[..n]), xs) == FieldRun(t, NewField(t[..n]), ys)
  {
    GaplessRun(t, n, xs);
    GaplessRun(t, n, ys);
    FarthestIs(n, xs);
    FarthestIs(n, ys);
  }
}

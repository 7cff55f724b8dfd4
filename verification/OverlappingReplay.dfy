/**
 Replaying events a client has already folded leaves it unchanged, which lets a read
 take its cursor before it captures content.
 */
module OverlappingReplay {
  import opened Events
  import opened Utf16
  import opened StreamContent
  import C = Client

  // ---- one part on its own ----

  function PartStep(lp: Option<LivePart>, p: string, e: Event): Option<LivePart> {
    match e
    case PartDelta(q, f, offset, text) =>
      if q == p && lp.Some? then Some(DeltaPart(lp.value, f, offset, text)) else lp
    case PartUpserted(part, final) => if part.id == p then Some(UpsertPart(lp, part, final)) else lp
    case PartRemoved(_, q) => if q == p then None else lp
    case MessageRemoved(m) => if lp.Some? && lp.value.part.messageId == m then None else lp
    case _ => lp
  }

  function PartFold(lp: Option<LivePart>, p: string, evs: seq<Event>): Option<LivePart>
    decreases |evs|
  {
    if evs == [] then lp else PartFold(PartStep(lp, p, evs[0]), p, evs[1..])
  }

  lemma StepPart(c: C.Client, e: Event, p: string)
    ensures PartOf(C.Step(c, e).content.parts, p) == PartStep(PartOf(c.content.parts, p), p, e)
  {
  }

  lemma {:induction false} FoldPart(c: C.Client, evs: seq<Event>, p: string)
    ensures PartOf(C.Fold(c, evs).content.parts, p) == PartFold(PartOf(c.content.parts, p), p, evs)
    decreases |evs|
  {
    hide C.Step, PartStep, PartOf;
    if evs != [] {
      StepPart(c, evs[0], p);
      FoldPart(C.Step(c, evs[0]), evs[1..], p);
    }
  }

  /** A part keeps its message id. */
  ghost predicate InMessage(lp: Option<LivePart>, mid: string) { lp.Some? ==> lp.value.part.messageId == mid }

  ghost predicate KeepsMessage(e: Event, p: string, mid: string) {
    e.PartUpserted? && e.part.id == p ==> e.part.messageId == mid
  }

  /** The delta was accepted: its part is held and its offset leaves no gap. */
  predicate Accepted(lp: Option<LivePart>, p: string, e: Event) {
    e.PartDelta? && e.partId == p ==>
      lp.Some? && e.offset <= (if e.field in lp.value.fields then lp.value.fields[e.field].units else 0)
  }

  predicate AllAccepted(lp: Option<LivePart>, p: string, evs: seq<Event>)
    decreases |evs|
  {
    evs == [] || (Accepted(lp, p, evs[0]) && AllAccepted(PartStep(lp, p, evs[0]), p, evs[1..]))
  }

  predicate Resets(e: Event, p: string, mid: string) {
    || (e.PartUpserted? && e.part.id == p && e.final)
    || (e.PartRemoved? && e.removedPartId == p)
    || (e.MessageRemoved? && e.messageId == mid)
  }

  predicate WillReset(evs: seq<Event>, p: string, mid: string) {
    exists i :: 0 <= i < |evs| && Resets(evs[i], p, mid)
  }

  /** `b` has every field of `a`, no shorter. */
  ghost predicate Covers(a: Option<LivePart>, b: Option<LivePart>) {
    a.Some? ==> b.Some? && forall f :: f in a.value.fields ==>
                  f in b.value.fields && a.value.fields[f].units <= b.value.fields[f].units
  }

  /** The delta ends within its field of the part, or starts past it: folding it changes nothing. */
  predicate Settled(lp: Option<LivePart>, f: Field, offset: int, text: string) {
    lp.Some? ==>
      && f in lp.value.fields
      && (lp.value.fields[f].units < offset || offset + Units(text) <= lp.value.fields[f].units)
  }

  ghost predicate AllSettled(lp: Option<LivePart>, p: string, evs: seq<Event>) {
    forall i :: 0 <= i < |evs| && evs[i].PartDelta? && evs[i].partId == p ==>
      Settled(lp, evs[i].field, evs[i].offset, evs[i].text)
  }

  lemma DeltaUnits(cur: StreamField, offset: int, text: string)
    ensures DeltaField(cur, offset, text).units >= cur.units
    ensures offset <= cur.units ==> DeltaField(cur, offset, text).units >= offset + Units(text)
    ensures cur.units < offset || offset + Units(text) <= cur.units ==> DeltaField(cur, offset, text) == cur
  {
    EncodeLength(text);
    assert Units(text) == 0 ==> cur.b + text == cur.b;
  }

  lemma GrowStep(g: Option<LivePart>, p: string, mid: string, e: Event)
    requires InMessage(g, mid) && !Resets(e, p, mid)
    ensures Covers(g, PartStep(g, p, e))
  {
    if e.PartDelta? && e.partId == p && g.Some? && e.field in g.value.fields {
      DeltaUnits(g.value.fields[e.field], e.offset, e.text);
    }
  }

  lemma StepInMessage(g: Option<LivePart>, p: string, mid: string, e: Event)
    requires InMessage(g, mid) && KeepsMessage(e, p, mid)
    ensures InMessage(PartStep(g, p, e), mid)
  {
  }

  /** Without a reset ahead, a part only grows. */
  lemma {:induction false} Grows(g: Option<LivePart>, p: string, mid: string, evs: seq<Event>)
    requires InMessage(g, mid) && (forall i :: 0 <= i < |evs| ==> KeepsMessage(evs[i], p, mid))
    requires !WillReset(evs, p, mid)
    ensures Covers(g, PartFold(g, p, evs))
    decreases |evs|
  {
    if evs != [] {
      assert !Resets(evs[0], p, mid);
      GrowStep(g, p, mid, evs[0]);
      StepInMessage(g, p, mid, evs[0]);
      assert forall i :: 0 <= i < |evs[1..]| ==> evs[1..][i] == evs[i + 1];
      Grows(PartStep(g, p, evs[0]), p, mid, evs[1..]);
    }
  }

  /** A part further along: every value is the final one or the one being rebuilt. */
  ghost predicate Ahead(h: Option<LivePart>, g: Option<LivePart>, f: Option<LivePart>) {
    && h.Some? && f.Some? && h.value.fields.Keys == f.value.fields.Keys
    && (forall x :: x in h.value.fields ==>
          || h.value.fields[x] == f.value.fields[x]
          || (g.Some? && x in g.value.fields && h.value.fields[x] == g.value.fields[x]))
    && ((h.value.part, h.value.final) == (f.value.part, f.value.final)
        || (g.Some? && (h.value.part, h.value.final) == (g.value.part, g.value.final)))
  }

  lemma AheadStep(h: Option<LivePart>, g: Option<LivePart>, f: Option<LivePart>, p: string, mid: string, e: Event)
    requires Ahead(h, g, f) && InMessage(h, mid) && InMessage(g, mid)
    requires AllSettled(f, p, [e]) && !Resets(e, p, mid)
    requires Covers(PartStep(g, p, e), f)
    ensures Ahead(PartStep(h, p, e), PartStep(g, p, e), f)
  {
    var h', g' := PartStep(h, p, e), PartStep(g, p, e);
    if e.PartDelta? && e.partId == p {
      var x := e.field;
      assert [e][0] == e;
      assert Settled(f, x, e.offset, e.text);
      DeltaUnits(f.value.fields[x], e.offset, e.text);
      assert h'.value.fields.Keys == h.value.fields.Keys;
    } else if e.PartUpserted? && e.part.id == p {
      AheadUpsert(h, g, f, e.part);
    }
  }

  lemma AheadUpsert(h: Option<LivePart>, g: Option<LivePart>, f: Option<LivePart>, part: Part)
    requires Ahead(h, g, f)
    requires Covers(Some(UpsertPart(g, part, false)), f)
    ensures Ahead(Some(UpsertPart(h, part, false)), Some(UpsertPart(g, part, false)), f)
  {
    var h', g' := UpsertPart(h, part, false), UpsertPart(g, part, false);
    var values := StreamedFields(part.data);
    forall x | x in h'.fields
      ensures x in f.value.fields
      ensures h'.fields[x] == f.value.fields[x] || (x in g'.fields && h'.fields[x] == g'.fields[x])
    {
      if x in values {
        assert x in g'.fields && g'.fields[x] == UpsertField(FieldOf(if g.Some? then g.value.fields else map[], x), values[x]);
        assert g'.fields[x].units <= f.value.fields[x].units;
      }
    }
    assert h'.fields.Keys == h.value.fields.Keys + values.Keys;
  }

  /** A part restarted from further along ends where the original ended. */
  lemma {:induction false} CatchesUp(h: Option<LivePart>, g: Option<LivePart>, p: string, mid: string, evs: seq<Event>)
    requires InMessage(h, mid) && InMessage(g, mid)
    requires forall i :: 0 <= i < |evs| ==> KeepsMessage(evs[i], p, mid)
    requires h == g || WillReset(evs, p, mid) || (Ahead(h, g, PartFold(g, p, evs)) && AllSettled(PartFold(g, p, evs), p, evs))
    ensures PartFold(h, p, evs) == PartFold(g, p, evs)
    decreases |evs|
  {
    if evs == [] {
      if Ahead(h, g, g) {
        assert h.value.fields == g.value.fields;
      }
      return;
    }
    var e, rest := evs[0], evs[1..];
    var h', g' := PartStep(h, p, e), PartStep(g, p, e);
    StepInMessage(h, p, mid, e);
    StepInMessage(g, p, mid, e);
    assert forall i :: 0 <= i < |rest| ==> rest[i] == evs[i + 1];
    if h != g && !WillReset(rest, p, mid) {
      if Resets(e, p, mid) {
        assert h' == g';
      } else {
        assert !WillReset(evs, p, mid);
        Grows(g', p, mid, rest);
        assert [e][0] == evs[0];
        AheadStep(h, g, PartFold(g, p, evs), p, mid, e);
      }
    }
    CatchesUp(h', g', p, mid, rest);
  }

  lemma {:induction false} FoldInMessage(g: Option<LivePart>, p: string, mid: string, evs: seq<Event>)
    requires InMessage(g, mid) && (forall i :: 0 <= i < |evs| ==> KeepsMessage(evs[i], p, mid))
    ensures InMessage(PartFold(g, p, evs), mid)
    decreases |evs|
  {
    if evs != [] {
      StepInMessage(g, p, mid, evs[0]);
      FoldInMessage(PartStep(g, p, evs[0]), p, mid, evs[1..]);
    }
  }

  /** A field of the part is longer than before, or new. */
  ghost predicate Beyond(f: Option<LivePart>, h: Option<LivePart>, x: Field) {
    && f.Some? && h.Some? && x in h.value.fields
    && (x in f.value.fields ==> f.value.fields[x].units < h.value.fields[x].units)
  }

  lemma UnsettledStep(f: Option<LivePart>, h: Option<LivePart>, p: string, e: Event)
    requires Covers(f, h) && e.PartDelta? && e.partId == p && !Settled(f, e.field, e.offset, e.text)
    ensures Beyond(f, PartStep(h, p, e), e.field)
  {
    if e.field in f.value.fields {
      DeltaUnits(h.value.fields[e.field], e.offset, e.text);
    }
  }

  /** Without a reset, an unsettled delta takes the part past where it was. */
  lemma {:induction false} Overgrows(f: Option<LivePart>, h: Option<LivePart>, p: string, mid: string, evs: seq<Event>, i: nat)
    requires Covers(f, h) && InMessage(h, mid) && (forall j :: 0 <= j < |evs| ==> KeepsMessage(evs[j], p, mid))
    requires !WillReset(evs, p, mid)
    requires i < |evs| && evs[i].PartDelta? && evs[i].partId == p && !Settled(f, evs[i].field, evs[i].offset, evs[i].text)
    ensures Beyond(f, PartFold(h, p, evs), evs[i].field)
    decreases |evs|
  {
    var rest := evs[1..];
    assert forall j :: 0 <= j < |rest| ==> rest[j] == evs[j + 1];
    assert !Resets(evs[0], p, mid);
    StepInMessage(h, p, mid, evs[0]);
    if i == 0 {
      UnsettledStep(f, h, p, evs[0]);
      Grows(PartStep(h, p, evs[0]), p, mid, rest);
    } else {
      GrowStep(h, p, mid, evs[0]);
      Overgrows(f, PartStep(h, p, evs[0]), p, mid, rest, i - 1);
    }
  }

  /** Folding a run again over the part it built changes nothing exactly where it resets the part or every delta is settled in it. */
  lemma PartIdempotent(g: Option<LivePart>, p: string, mid: string, evs: seq<Event>)
    requires InMessage(g, mid) && (forall i :: 0 <= i < |evs| ==> KeepsMessage(evs[i], p, mid))
    ensures PartFold(PartFold(g, p, evs), p, evs) == PartFold(g, p, evs)
       <==> WillReset(evs, p, mid) || AllSettled(PartFold(g, p, evs), p, evs)
  {
    var f := PartFold(g, p, evs);
    FoldInMessage(g, p, mid, evs);
    if !WillReset(evs, p, mid) {
      Grows(g, p, mid, evs);
      if !AllSettled(f, p, evs) {
        var i :| 0 <= i < |evs| && evs[i].PartDelta? && evs[i].partId == p && !Settled(f, evs[i].field, evs[i].offset, evs[i].text);
        Overgrows(f, f, p, mid, evs, i);
        return;
      }
      if f.None? {
        assert g.None?;
      }
    }
    CatchesUp(f, g, p, mid, evs);
  }

  /** A run whose every delta was accepted is one of these. */
  lemma {:induction false} AcceptedSettles(g: Option<LivePart>, p: string, mid: string, evs: seq<Event>)
    requires InMessage(g, mid) && (forall i :: 0 <= i < |evs| ==> KeepsMessage(evs[i], p, mid))
    requires AllAccepted(g, p, evs)
    ensures WillReset(evs, p, mid) || AllSettled(PartFold(g, p, evs), p, evs)
    decreases |evs|
  {
    if evs != [] && !WillReset(evs, p, mid) {
      var e, rest, g' := evs[0], evs[1..], PartStep(g, p, evs[0]);
      assert forall j :: 0 <= j < |rest| ==> rest[j] == evs[j + 1];
      StepInMessage(g, p, mid, e);
      AcceptedSettles(g', p, mid, rest);
      if e.PartDelta? && e.partId == p {
        DeltaUnits(if e.field in g.value.fields then g.value.fields[e.field] else NewField(""), e.offset, e.text);
        Grows(g', p, mid, rest);
      }
    }
  }

  // ---- the rest of the client ----

  /** The last value set, or what was there before. */
  function Last<T>(x: T, sets: seq<Option<T>>): T {
    if sets == [] then x
    else
      var n := |sets| - 1;
      if sets[n].Some? then sets[n].value else Last(x, sets[..n])
  }

  /** Setting the same values again changes nothing. */
  lemma {:induction false} LastTwice<T>(x: T, sets: seq<Option<T>>)
    ensures Last(Last(x, sets), sets) == Last(x, sets)
  {
    if sets != [] && sets[|sets| - 1].None? {
      LastTwice(x, sets[..|sets| - 1]);
    }
  }

  function StatusSets(evs: seq<Event>): seq<Option<Status>> {
    seq(|evs|, i requires 0 <= i < |evs| => if evs[i].StatusChanged? then Some(evs[i].status) else None)
  }

  function BackgroundSets(evs: seq<Event>): seq<Option<Background>> {
    seq(|evs|, i requires 0 <= i < |evs| => if evs[i].BackgroundChanged? then Some(evs[i].background) else None)
  }

  function QueueSets(evs: seq<Event>): seq<Option<Option<seq<int>>>> {
    seq(|evs|, i requires 0 <= i < |evs| => if evs[i].QueueChanged? then Some(Some(evs[i].queue)) else None)
  }

  function MessageSets(evs: seq<Event>, id: string): seq<Option<Option<Message>>> {
    seq(|evs|, i requires 0 <= i < |evs| =>
      if evs[i].MessageUpserted? && evs[i].message.id == id then Some(Some(evs[i].message))
      else if evs[i] == MessageRemoved(id) then Some(None)
      else None)
  }

  function AskedSets(evs: seq<Event>, id: string): seq<Option<Option<Prompt>>> {
    seq(|evs|, i requires 0 <= i < |evs| =>
      if evs[i].PromptAsked? && evs[i].prompt.id == id then Some(Some(evs[i].prompt)) else None)
  }

  function JudgedSets(evs: seq<Event>, id: string): seq<Option<Option<Judge>>> {
    seq(|evs|, i requires 0 <= i < |evs| =>
      if evs[i].PromptJudge? && evs[i].judge.promptId == id then Some(Some(evs[i].judge)) else None)
  }

  ghost predicate Absolute(evs: seq<Event>) {
    forall i :: 0 <= i < |evs| && evs[i].StatusChanged? ==> C.Absolute(evs[i].status)
  }

  lemma {:induction false} FoldStatus(c: C.Client, evs: seq<Event>)
    requires Absolute(evs)
    ensures C.Fold(c, evs).status == Last(c.status, StatusSets(evs))
  {
    if evs != [] {
      var most, e := evs[..|evs| - 1], evs[|evs| - 1];
      assert evs == most + [e];
      C.FoldLast(c, most, e);
      FoldStatus(c, most);
      assert StatusSets(evs)[..|most|] == StatusSets(most);
    }
  }

  lemma {:induction false} FoldBackground(c: C.Client, evs: seq<Event>)
    ensures C.Fold(c, evs).background == Last(c.background, BackgroundSets(evs))
  {
    if evs != [] {
      var most, e := evs[..|evs| - 1], evs[|evs| - 1];
      assert evs == most + [e];
      C.FoldLast(c, most, e);
      FoldBackground(c, most);
      assert BackgroundSets(evs)[..|most|] == BackgroundSets(most);
    }
  }

  lemma {:induction false} FoldQueue(c: C.Client, evs: seq<Event>)
    ensures C.Fold(c, evs).queue == Last(c.queue, QueueSets(evs))
  {
    if evs != [] {
      var most, e := evs[..|evs| - 1], evs[|evs| - 1];
      assert evs == most + [e];
      C.FoldLast(c, most, e);
      FoldQueue(c, most);
      assert QueueSets(evs)[..|most|] == QueueSets(most);
    }
  }

  lemma MessageStep(c: C.Client, e: Event, id: string)
    ensures Lookup(C.Step(c, e).content.msgs, id)
         == if e.MessageUpserted? && e.message.id == id then Some(e.message)
            else if e == MessageRemoved(id) then None
            else Lookup(c.content.msgs, id)
  {
  }

  lemma {:induction false} FoldMessage(c: C.Client, evs: seq<Event>, id: string)
    ensures Lookup(C.Fold(c, evs).content.msgs, id) == Last(Lookup(c.content.msgs, id), MessageSets(evs, id))
  {
    if evs != [] {
      var most, e := evs[..|evs| - 1], evs[|evs| - 1];
      assert evs == most + [e];
      C.FoldLast(c, most, e);
      FoldMessage(c, most, id);
      MessageStep(C.Fold(c, most), e, id);
      hide C.Step, C.Fold, Lookup;
      assert MessageSets(evs, id)[..|most|] == MessageSets(most, id);
    }
  }

  // ---- prompts ----

  lemma {:induction false} FoldResolved(c: C.Client, evs: seq<Event>)
    ensures C.Fold(c, evs).resolved == c.resolved + set i | 0 <= i < |evs| && evs[i].PromptResolved? :: evs[i].promptId
    decreases |evs|
  {
    if evs == [] {
      return;
    }
    var d := C.Step(c, evs[0]);
    FoldResolved(d, evs[1..]);
    var a := set i | 0 <= i < |evs| && evs[i].PromptResolved? :: evs[i].promptId;
    var b := set i | 0 <= i < |evs[1..]| && evs[1..][i].PromptResolved? :: evs[1..][i].promptId;
    forall id
      ensures id in a <==> id in b || evs[0] == PromptResolved(id)
    {
      if id in a {
        var i :| 0 <= i < |evs| && evs[i].PromptResolved? && evs[i].promptId == id;
        assert i > 0 ==> evs[1..][i - 1] == evs[i];
      }
      if id in b {
        var i :| 0 <= i < |evs[1..]| && evs[1..][i].PromptResolved? && evs[1..][i].promptId == id;
        assert evs[i + 1] == evs[1..][i];
      }
    }
  }

  /** A resolved prompt is never opened or judged again. */
  lemma {:induction false} ResolvedStays(c: C.Client, evs: seq<Event>, id: string)
    requires C.WellFormed(c) && id in c.resolved
    ensures Lookup(C.Fold(c, evs).prompts, id) == None && Lookup(C.Fold(c, evs).judge, id) == None
    decreases |evs|
  {
    if evs != [] {
      C.StepWellFormed(c, evs[0]);
      ResolvedStays(C.Step(c, evs[0]), evs[1..], id);
    }
  }

  lemma OpenStep(d: C.Client, e: Event, id: string)
    requires id !in C.Step(d, e).resolved
    ensures id !in d.resolved
    ensures Lookup(C.Step(d, e).prompts, id) ==
              if e.PromptAsked? && e.prompt.id == id then Some(e.prompt) else Lookup(d.prompts, id)
    ensures Lookup(C.Step(d, e).judge, id) ==
              if e.PromptJudge? && e.judge.promptId == id then Some(e.judge) else Lookup(d.judge, id)
  {
  }

  lemma {:induction false} OpenFold(c: C.Client, evs: seq<Event>, id: string)
    requires id !in C.Fold(c, evs).resolved
    ensures Lookup(C.Fold(c, evs).prompts, id) == Last(Lookup(c.prompts, id), AskedSets(evs, id))
    ensures Lookup(C.Fold(c, evs).judge, id) == Last(Lookup(c.judge, id), JudgedSets(evs, id))
  {
    hide C.Step, Lookup;
    if evs != [] {
      var most, e := evs[..|evs| - 1], evs[|evs| - 1];
      assert evs == most + [e];
      C.FoldLast(c, most, e);
      OpenStep(C.Fold(c, most), e, id);
      OpenFold(c, most, id);
      assert AskedSets(evs, id)[..|most|] == AskedSets(most, id);
      assert JudgedSets(evs, id)[..|most|] == JudgedSets(most, id);
    }
  }

  lemma PromptIdempotent(c: C.Client, evs: seq<Event>, id: string)
    requires C.WellFormed(c)
    ensures var f := C.Fold(c, evs);
            && Lookup(C.Fold(f, evs).prompts, id) == Lookup(f.prompts, id)
            && Lookup(C.Fold(f, evs).judge, id) == Lookup(f.judge, id)
  {
    var f := C.Fold(c, evs);
    C.FoldWellFormed(c, evs);
    FoldResolved(c, evs);
    FoldResolved(f, evs);
    if id in f.resolved {
      ResolvedStays(f, evs, id);
    } else {
      OpenFold(c, evs, id);
      OpenFold(f, evs, id);
      LastTwice(Lookup(c.prompts, id), AskedSets(evs, id));
      LastTwice(Lookup(c.judge, id), JudgedSets(evs, id));
    }
  }

  lemma SameMap<V>(m: map<string, V>, n: map<string, V>)
    requires forall k :: Lookup(m, k) == Lookup(n, k)
    ensures m == n
  {
    forall k
      ensures k in m <==> k in n
    {
      assert Lookup(m, k) == Lookup(n, k);
    }
    forall k | k in m
      ensures m[k] == n[k]
    {
      assert Lookup(m, k) == Lookup(n, k);
    }
  }

  // ---- the theorem ----

  /**
   Folding a run again over its own result changes nothing if and only if, for each part, the
   run resets the part or every delta ends within its field of the result or starts past it.
   `mids` names each part's message.
   */
  lemma OverlapIsIdempotent(c: C.Client, evs: seq<Event>, mids: string -> string)
    requires C.WellFormed(c) && Absolute(evs)
    requires forall p :: InMessage(PartOf(c.content.parts, p), mids(p))
    requires forall p, i :: 0 <= i < |evs| ==> KeepsMessage(evs[i], p, mids(p))
    ensures C.Fold(C.Fold(c, evs), evs) == C.Fold(c, evs)
       <==> forall p :: WillReset(evs, p, mids(p)) || AllSettled(PartOf(C.Fold(c, evs).content.parts, p), p, evs)
  {
    var f := C.Fold(c, evs);
    var g := C.Fold(f, evs);
    FoldStatus(c, evs);
    FoldStatus(f, evs);
    FoldBackground(c, evs);
    FoldBackground(f, evs);
    FoldQueue(c, evs);
    FoldQueue(f, evs);
    LastTwice(c.status, StatusSets(evs));
    LastTwice(c.background, BackgroundSets(evs));
    LastTwice(c.queue, QueueSets(evs));
    forall id
      ensures Lookup(g.content.msgs, id) == Lookup(f.content.msgs, id)
    {
      FoldMessage(c, evs, id);
      FoldMessage(f, evs, id);
      LastTwice(Lookup(c.content.msgs, id), MessageSets(evs, id));
    }
    forall p
      ensures Lookup(g.content.parts, p) == Lookup(f.content.parts, p)
         <==> WillReset(evs, p, mids(p)) || AllSettled(PartOf(f.content.parts, p), p, evs)
    {
      FoldPart(c, evs, p);
      FoldPart(f, evs, p);
      PartIdempotent(PartOf(c.content.parts, p), p, mids(p), evs);
    }
    forall id
      ensures Lookup(g.prompts, id) == Lookup(f.prompts, id) && Lookup(g.judge, id) == Lookup(f.judge, id)
    {
      PromptIdempotent(c, evs, id);
    }
    FoldResolved(c, evs);
    FoldResolved(f, evs);
    SameMap(g.content.msgs, f.content.msgs);
    if forall p :: Lookup(g.content.parts, p) == Lookup(f.content.parts, p) {
      SameMap(g.content.parts, f.content.parts);
    }
    SameMap(g.prompts, f.prompts);
    SameMap(g.judge, f.judge);
  }

  /** A refused delta breaks it: once a later upsert closes the gap, the replay accepts it. */
  lemma GapBreaksIdempotence(c: C.Client)
    requires c.content.parts == map["p" := LivePart(Part("p", "m", PartData("", "", NoOutput, "", 0)),
                                                    map[Text := NewField("a"), ToolInput := NewField("")], false)]
    ensures var evs := [PartDelta("p", Text, 3, "x"),
                        PartUpserted(Part("p", "m", PartData("abc", "", NoOutput, "", 0)), false)];
            && !AllAccepted(PartOf(c.content.parts, "p"), "p", evs)
            && C.Fold(C.Fold(c, evs), evs) != C.Fold(c, evs)
  {
    var gap := PartDelta("p", Text, 3, "x");
    var up := PartUpserted(Part("p", "m", PartData("abc", "", NoOutput, "", 0)), false);
    Literals();
    var c1 := C.Step(c, gap);
    var f := C.Step(c1, up);
    FoldTwo(c, gap, up);
    assert f.content.parts["p"].fields[Text] == NewField("abc");
    FoldTwo(f, gap, up);
    var g := C.Step(f, gap);
    assert g.content.parts["p"].fields[Text] == StreamField("abcx", 4);
    assert C.Step(g, up).content.parts["p"].fields[Text] == StreamField("abcx", 4);
  }

  /** A delta folded over a client is harmless exactly where it is settled. */
  lemma ReplayedDelta(c: C.Client, p: string, f: Field, offset: int, text: string)
    ensures C.Step(c, PartDelta(p, f, offset, text)) == c <==> Settled(PartOf(c.content.parts, p), f, offset, text)
  {
    if p in c.content.parts {
      var lp, d := c.content.parts[p], C.Step(c, PartDelta(p, f, offset, text));
      assert d.content.parts[p].fields.Keys == lp.fields.Keys + {f};
      if f in lp.fields {
        DeltaHarmless(lp.fields[f], offset, text);
        hide DeltaField;
        if DeltaField(lp.fields[f], offset, text) == lp.fields[f] {
          assert lp.fields[f := lp.fields[f]] == lp.fields;
          assert c.content.parts[p := lp] == c.content.parts;
        } else {
          assert d.content.parts[p].fields[f] != lp.fields[f];
        }
      } else {
        assert f in d.content.parts[p].fields;
      }
    }
  }

  lemma DeltaHarmless(cur: StreamField, offset: int, text: string)
    ensures DeltaField(cur, offset, text) == cur <==> cur.units < offset || offset + Units(text) <= cur.units
  {
    EncodeLength(text);
    UnitsZero(text);
  }

  lemma FoldTwo(c: C.Client, a: Event, b: Event)
    ensures C.Fold(c, [a, b]) == C.Step(C.Step(c, a), b)
  {
    C.FoldLast(c, [a], b);
    C.FoldLast(c, [], a);
    assert [a] + [b] == [a, b] && [] + [a] == [a];
  }

  lemma Literals()
    ensures Units("a") == 1 && Units("x") == 1 && Units("abc") == 3 && "abc" + "x" == "abcx"
  {
    assert "abc"[1..] == "bc" && "bc"[1..] == "c" && "c"[1..] == "";
  }
}

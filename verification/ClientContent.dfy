/**
 The content of a client against the session's ledger: greeted with the ledger's content and
 folding every event published since, a client holds all the ledger holds.
 */
module ClientContent {
  import opened Events
  import opened Utf16
  import opened StreamContent
  import opened SessionModel
  import opened SessionRuns
  import C = Client
  import L = LedgerModel

  // ---- what a client holds of the ledger's content ----

  function FieldIn(lp: LivePart, f: Field): StreamField { if f in lp.fields then lp.fields[f] else NewField("") }

  /** The same part of the same message, no field shorter. */
  ghost predicate NoShorter(lp: LivePart, of: LivePart) {
    && lp.part.messageId == of.part.messageId
    && lp.part.data.status == of.part.data.status && lp.part.data.rest == of.part.data.rest
    && forall f :: FieldIn(of, f).units <= FieldIn(lp, f).units
  }

  ghost predicate SameFields(lp: LivePart, of: LivePart) { forall f :: FieldIn(lp, f) == FieldIn(of, f) }

  /**
   `c` holds all of `d`: its messages, and its parts with no field shorter, and with the
   same texts but for the parts in `dropped`.
   */
  ghost predicate Follows(c: Content, d: Content, dropped: set<string>) {
    && (forall id :: id in d.msgs ==> id in c.msgs && c.msgs[id] == d.msgs[id])
    && (forall p :: p in d.parts ==> p in c.parts && NoShorter(c.parts[p], d.parts[p]))
    && (forall p :: p !in dropped && p in c.parts ==> p in d.parts && SameFields(c.parts[p], d.parts[p]))
  }

  // ---- the greeting ----

  /** Part data holds no streamed value; the fields do. */
  ghost predicate Stripped(c: Content) { forall p :: p in c.parts ==> c.parts[p].part.data == StripFields(c.parts[p].part.data) }

  ghost predicate Exact(c: Content) { UnitsExact(c) && Stripped(c) }

  lemma GreetedField(lp: LivePart, f: Field)
    requires lp.part.data == StripFields(lp.part.data) && forall g :: g in lp.fields ==> FieldExact(lp.fields[g])
    ensures FieldIn(UpsertPart(None, Render(lp), false), f) == FieldIn(lp, f)
  {
    hide UpsertPart, Units, WithFields, StripFields;
    UpsertIn(None, Render(lp), false, f);
    RenderedText(lp, f);
    EmptyField();
  }

  /** Rendered data holds exactly the streamed text of each field. */
  lemma RenderedText(lp: LivePart, f: Field)
    requires lp.part.data == StripFields(lp.part.data) && forall g :: g in lp.fields ==> FieldExact(lp.fields[g])
    ensures Have(Render(lp).data, f) == if f in lp.fields then lp.fields[f].b else ""
    ensures f in lp.fields ==> lp.fields[f] == NewField(lp.fields[f].b)
  {
    hide Units;
    var d := lp.part.data;
    StrippedEmpty(d);
    var d1 := Pick(d, Values(lp.fields), Text);
    var d2 := Pick(d1, Values(lp.fields), ToolInput);
    PickText(d, Values(lp.fields), Text, f);
    PickText(d1, Values(lp.fields), ToolInput, f);
    PickText(d2, Values(lp.fields), ToolOutput, f);
    hide Pick, Have, StripFields;
  }

  lemma StrippedEmpty(d: PartData)
    requires d == StripFields(d)
    ensures forall f :: Have(d, f) == ""
  {
  }

  lemma PickText(d: PartData, fields: map<Field, string>, g: Field, f: Field)
    requires Have(d, g) == ""
    ensures Have(Pick(d, fields, g), f) == if f == g && g in fields then fields[g] else Have(d, f)
  {
    hide Units;
    UnitsZero("");
    if g in fields {
      UnitsZero(fields[g]);
    }
  }

  /** A greeting gives a client the ledger's content, text for text. */
  lemma GreetedFollows(d: Content)
    requires Exact(d)
    ensures Follows(Greeted(d), d, {})
  {
    forall p, f | p in d.parts
      ensures FieldIn(Greeted(d).parts[p], f) == FieldIn(d.parts[p], f)
    {
      assert forall g :: g in d.parts[p].fields ==> FieldExact(d.parts[p].fields[g]);
      GreetedField(d.parts[p], f);
    }
    hide UpsertPart, Render, FieldIn;
    forall p | p in d.parts
      ensures NoShorter(Greeted(d).parts[p], d.parts[p]) && SameFields(Greeted(d).parts[p], d.parts[p])
    {
      GreetedPart(d.parts[p]);
    }
  }

  lemma GreetedPart(lp: LivePart)
    ensures var g := UpsertPart(None, Render(lp), false);
            && g.part.messageId == lp.part.messageId
            && g.part.data.status == lp.part.data.status && g.part.data.rest == lp.part.data.rest
  {
  }

  // ---- one event ----

  lemma DeltaFollows(cp: LivePart, dp: LivePart, f: Field, offset: int, text: string)
    requires NoShorter(cp, dp)
    ensures NoShorter(DeltaPart(cp, f, offset, text), DeltaPart(dp, f, offset, text))
    ensures SameFields(cp, dp) ==> SameFields(DeltaPart(cp, f, offset, text), DeltaPart(dp, f, offset, text))
  {
    hide DeltaField, DeltaPart, FieldIn;
    DeltaPartKeeps(cp, f, offset, text);
    DeltaPartKeeps(dp, f, offset, text);
    DeltaFieldLength(FieldIn(cp, f), offset, text);
    DeltaFieldLength(FieldIn(dp, f), offset, text);
    forall g
      ensures FieldIn(DeltaPart(dp, f, offset, text), g).units <= FieldIn(DeltaPart(cp, f, offset, text), g).units
      ensures FieldIn(cp, g) == FieldIn(dp, g) ==> FieldIn(DeltaPart(cp, f, offset, text), g) == FieldIn(DeltaPart(dp, f, offset, text), g)
    {
      DeltaIn(cp, f, offset, text, g);
      DeltaIn(dp, f, offset, text, g);
    }
  }

  lemma DeltaIn(lp: LivePart, f: Field, offset: int, text: string, g: Field)
    ensures FieldIn(DeltaPart(lp, f, offset, text), g) == if g == f then DeltaField(FieldIn(lp, f), offset, text) else FieldIn(lp, g)
  {
    hide DeltaField;
  }

  lemma DeltaPartKeeps(lp: LivePart, f: Field, offset: int, text: string)
    ensures DeltaPart(lp, f, offset, text).part == lp.part
  {
  }

  /** What an upsert that restates nothing of a field leaves of it. */
  function Base(prev: Option<LivePart>, final: bool, f: Field): StreamField {
    if prev.Some? && !final then FieldIn(prev.value, f) else NewField("")
  }

  lemma UpsertIn(prev: Option<LivePart>, part: Part, final: bool, f: Field)
    ensures var values, base := StreamedFields(part.data), Base(prev, final, f);
            FieldIn(UpsertPart(prev, part, final), f)
            == if f in values && Units(values[f]) >= base.units then NewField(values[f]) else base
  {
    hide Units;
    UnitsZero("");
  }

  lemma UpsertKeeps(prev: Option<LivePart>, part: Part, final: bool)
    ensures UpsertPart(prev, part, final).part == part.(data := StripFields(part.data))
  {
  }

  lemma UpsertFollows(cp: Option<LivePart>, dp: Option<LivePart>, part: Part, final: bool)
    requires cp.Some? && dp.Some? ==> NoShorter(cp.value, dp.value)
    requires dp.Some? ==> cp.Some?
    ensures NoShorter(UpsertPart(cp, part, final), UpsertPart(dp, part, final))
    ensures (cp.None? && dp.None?) || (cp.Some? && dp.Some? && SameFields(cp.value, dp.value)) ==>
              SameFields(UpsertPart(cp, part, final), UpsertPart(dp, part, final))
  {
    hide UpsertPart, Units, FieldIn, StripFields, StreamedFields;
    UpsertKeeps(cp, part, final);
    UpsertKeeps(dp, part, final);
    EmptyField();
    forall f
      ensures FieldIn(UpsertPart(dp, part, final), f).units <= FieldIn(UpsertPart(cp, part, final), f).units
      ensures Base(cp, final, f) == Base(dp, final, f) ==> FieldIn(UpsertPart(cp, part, final), f) == FieldIn(UpsertPart(dp, part, final), f)
    {
      UpsertIn(cp, part, final, f);
      UpsertIn(dp, part, final, f);
    }
  }

  lemma EmptyField()
    ensures NewField("").units == 0
  {
  }

  lemma RemoveFollows(c: Content, d: Content, dropped: set<string>, id: string)
    requires Follows(c, d, dropped)
    ensures Follows(AfterRemoveMessage(c, id), AfterRemoveMessage(d, id), dropped)
  {
    forall p | p in d.parts
      ensures c.parts[p].part.messageId == d.parts[p].part.messageId
    {
      assert NoShorter(c.parts[p], d.parts[p]);
    }
    hide NoShorter, SameFields;
  }

  lemma UpsertedFollows(c: Content, d: Content, dropped: set<string>, part: Part, final: bool)
    requires Follows(c, d, dropped)
    ensures Follows(AfterUpsert(c, part, final), AfterUpsert(d, part, final), dropped)
  {
    hide NoShorter, SameFields, UpsertPart;
    UpsertFollows(PartOf(c.parts, part.id), PartOf(d.parts, part.id), part, final);
  }

  /** Folding the same event, a client keeps holding all of it. */
  lemma FollowsApply(c: Content, d: Content, dropped: set<string>, e: Event)
    requires Follows(c, d, dropped)
    ensures Follows(Apply(c, e), Apply(d, e), dropped)
  {
    hide NoShorter, SameFields, UpsertPart, DeltaPart;
    match e
    case PartDelta(p, f, offset, text) =>
      if p in c.parts && p in d.parts {
        DeltaFollows(c.parts[p], d.parts[p], f, offset, text);
      }
    case PartUpserted(part, final) => UpsertedFollows(c, d, dropped, part, final);
    case MessageRemoved(id) =>
      RemoveFollows(c, d, dropped, id);
    case _ =>
  }

  lemma {:induction false} FollowsFolded(c: Content, d: Content, dropped: set<string>, evs: seq<Event>)
    requires Follows(c, d, dropped)
    ensures Follows(Folded(c, evs), Folded(d, evs), dropped)
    decreases |evs|
  {
    hide Follows, Apply;
    if evs != [] {
      FollowsApply(c, d, dropped, evs[0]);
      FollowsFolded(Apply(c, evs[0]), Apply(d, evs[0]), dropped, evs[1..]);
    }
  }

  /** What the ledger gives up it leaves as it is elsewhere. */
  ghost predicate Within(d: Content, of: Content) {
    && (forall id :: id in d.msgs ==> id in of.msgs && d.msgs[id] == of.msgs[id])
    && (forall p :: p in d.parts ==> p in of.parts && d.parts[p] == of.parts[p])
  }

  lemma FollowsWithin(c: Content, d: Content, e: Content, dropped: set<string>)
    requires Follows(c, d, dropped) && Within(e, d)
    ensures Follows(c, e, dropped + (d.parts.Keys - e.parts.Keys))
  {
    hide NoShorter, SameFields;
  }

  // ---- one step of the session ----

  /** What a step publishes. */
  function Since(l: Live, l1: Live): seq<Event>
    requires l.out <= l1.out
  {
    l1.out[|l.out|..]
  }

  /** The step's events are published in its epoch, and the ledger holds their content but for what it gave up. */
  ghost predicate Extends(l: Live, l1: Live) {
    && l.out <= l1.out && l1.start == l.start
    && Within(l1.led.content, Folded(l.led.content, Since(l, l1)))
    && (Exact(l.led.content) ==> Exact(l1.led.content))
  }

  /** The parts a step takes out of the ledger and no event removed. */
  function GivenUp(l: Live, l1: Live): set<string>
    requires l.out <= l1.out
  {
    Folded(l.led.content, Since(l, l1)).parts.Keys - l1.led.content.parts.Keys
  }

  lemma {:induction false} FoldedConcat(c: Content, a: seq<Event>, b: seq<Event>)
    ensures Folded(c, a + b) == Folded(Folded(c, a), b)
    decreases |a|
  {
    hide Apply;
    if a == [] {
      assert a + b == b;
    } else {
      assert (a + b)[1..] == a[1..] + b;
      FoldedConcat(Apply(c, a[0]), a[1..], b);
    }
  }

  /** An event that builds no content. */
  predicate Plain(e: Event) {
    !e.PartDelta? && !e.PartUpserted? && !e.PartRemoved? && !e.MessageUpserted? && !e.MessageRemoved?
  }

  lemma {:induction false} PlainFolded(c: Content, evs: seq<Event>)
    requires forall e :: e in evs ==> Plain(e)
    ensures Folded(c, evs) == c
    decreases |evs|
  {
    if evs != [] {
      assert Plain(evs[0]);
      PlainFolded(c, evs[1..]);
    }
  }

  /** A step that publishes no content, and leaves the ledger's alone. */
  ghost predicate Quiet(l: Live, l1: Live) {
    && l.out <= l1.out && l1.start == l.start && l1.led.content == l.led.content
    && forall e :: e in l1.out[|l.out|..] ==> Plain(e)
  }

  lemma QuietExtends(l: Live, l1: Live)
    requires Quiet(l, l1)
    ensures Extends(l, l1) && GivenUp(l, l1) == {}
  {
    PlainFolded(l.led.content, Since(l, l1));
  }

  lemma QuietOn(l: Live, l1: Live, l2: Live)
    requires Quiet(l, l1) && Quiet(l1, l2)
    ensures Quiet(l, l2)
  {
    assert l2.out[|l.out|..] == l1.out[|l.out|..] + l2.out[|l1.out|..];
  }

  lemma PublishQuiet(l: Live, e: Event)
    requires Plain(e)
    ensures Quiet(l, Publish(l, e))
  {
    assert (l.out + [e])[|l.out|..] == [e];
  }

  lemma EmitQuiet(l: Live)
    ensures Quiet(l, EmitStatus(l))
  {
    var e := Effective(l.ov, l.st.base);
    PublishQuiet(l.(st := l.st.(emitted := e)), StatusChanged(e));
    assert l.out[|l.out|..] == [];
  }

  lemma EndPendingQuiet(l: Live, outcome: StatusKind, latest: string, gen: nat)
    ensures Quiet(l, EndPendingTurn(l, outcome, latest, gen))
  {
    PublishQuiet(l.(st := l.st.(pendingEnd := false, gen := gen)), TurnEnded(outcome, latest));
    assert l.out[|l.out|..] == [];
  }

  lemma EdgeQuiet(l: Live, kind: StatusKind)
    ensures Quiet(l, Edge(l, kind))
  {
    EndPendingQuiet(l, Done, "", l.st.gen + 1);
    var l1 := EndPendingTurn(l, Done, "", l.st.gen + 1);
    PublishQuiet(l1.(st := l1.st.(turn := true)), TurnStarted(0));
    var l2 := l.(st := l.st.(gen := l.st.gen + 1, turn := false, pendingEnd := false));
    PublishQuiet(l2, TurnEnded(kind, ""));
    assert l.out[|l.out|..] == [];
    if kind == Busy && !l1.st.turn {
      QuietOn(l, l1, StartTurn(l));
    }
  }

  lemma SettleQuiet(l: Live, lc: Option<Lifecycle>)
    ensures Quiet(l, SettleLive(l, lc))
  {
    var (outcome, level) := SettledOutcome(lc);
    var latest := if lc.Some? then lc.value.latest else "";
    EndPendingQuiet(l, outcome, latest, l.st.gen);
    var l1 := EndPendingTurn(l, outcome, latest, l.st.gen);
    var l2 := if level.Some? && level.value != Waiting then SettleLedger(l1) else l1;
    if level.Some? && l2.st.base.provisional {
      var l3 := l2.(st := l2.st.(base := Status(level.value, false, Cleared, 0)));
      EmitQuiet(l3);
      QuietOn(l, l3, EmitStatus(l3));
    }
  }

  lemma StatusQuiet(l: Live, s: Status, now: int)
    ensures Quiet(l, HandleLive(l, StatusChanged(s), now))
  {
    hide EmitStatus, Edge;
    if IdleEdge(StatusChanged(s)) {
      EmitQuiet(SettleLedger(l.(st := l.st.(gen := l.st.gen + 1, turn := false, pendingEnd := l.st.pendingEnd || l.st.turn, base := IDLE))));
    } else {
      EdgeQuiet(l, s.kind);
      var l1 := Edge(l, s.kind);
      var l2 := l1.(st := l1.st.(base := Absolute(s)));
      EmitQuiet(l2);
      QuietOn(l, l1, EmitStatus(l2));
    }
  }

  // ---- content events ----

  lemma EventContent(l: L.LedgerState, ev: Event, now: int)
    ensures Within(L.AfterEvent(l, ev, now).content, Apply(l.content, ev))
    ensures !ev.HistoryRewritten? ==> L.AfterEvent(l, ev, now).content == Apply(l.content, ev)
    ensures Exact(l.content) ==> Exact(L.AfterEvent(l, ev, now).content)
  {
    hide Apply, UnitsExact, L.AfterEvent, L.Less;
    EventApplied(l, ev, now);
    if Exact(l.content) {
      ApplyUnits(l.content, ev);
      ApplyStripped(l.content, ev);
    }
    LessWithin(l.content, l.settled, {});
  }

  lemma EventApplied(l: L.LedgerState, ev: Event, now: int)
    ensures L.AfterEvent(l, ev, now).content
         == if ev.HistoryRewritten? then L.Less(l.content, l.settled, {}) else Apply(l.content, ev)
    ensures ev.HistoryRewritten? ==> Apply(l.content, ev) == l.content
  {
    hide L.Less;
  }

  lemma LessWithin(c: Content, ms: set<string>, ps: set<string>)
    ensures Within(L.Less(c, ms, ps), c) && (Exact(c) ==> Exact(L.Less(c, ms, ps)))
  {
    hide FieldExact, StripFields;
  }

  lemma ApplyStripped(c: Content, ev: Event)
    ensures Stripped(c) ==> Stripped(Apply(c, ev))
  {
    hide DeltaField;
  }

  lemma PlainQuiet(l: Live, ev: Event, now: int)
    requires Plain(ev) && !ev.StatusChanged? && !ev.HistoryRewritten?
    ensures Quiet(l, HandleLive(l, ev, now))
  {
    hide EmitStatus, AskOverlay, ResolveOverlay;
    assert l.out[|l.out|..] == [];
    match ev
    case PromptAsked(p) =>
      var l1 := l.(ov := AskOverlay(l.ov, p));
      PublishQuiet(l1, ev);
      EmitQuiet(Publish(l1, ev));
      QuietOn(l, Publish(l1, ev), EmitStatus(Publish(l1, ev)));
    case PromptResolved(id) =>
      var l1 := l.(ov := ResolveOverlay(l.ov, id));
      PublishQuiet(l1, ev);
      EmitQuiet(Publish(l1, ev));
      QuietOn(l, Publish(l1, ev), EmitStatus(Publish(l1, ev)));
    case PromptJudge(j) => PublishQuiet(l.(ov := l.ov.(judge := l.ov.judge[j.promptId := j])), ev);
    case BackgroundChanged(b) => PublishQuiet(l.(ov := l.ov.(background := b)), ev);
    case QueueChanged(q) => PublishQuiet(l.(ov := l.ov.(queue := Some(q))), ev);
    case _ => PublishQuiet(l, ev);
  }

  lemma FoldedOne(c: Content, ev: Event)
    ensures Folded(c, [ev]) == Apply(c, ev)
  {
    hide Apply;
    assert [ev][1..] == [];
  }

  lemma ContentExtends(l: Live, ev: Event, now: int)
    requires !Plain(ev) || ev.HistoryRewritten?
    ensures Extends(l, HandleLive(l, ev, now))
  {
    hide L.AfterEvent, Apply, Exact;
    EventContent(l.led, ev, now);
    var l1 := HandleLive(l, ev, now);
    assert l1 == Publish(l.(led := L.AfterEvent(l.led, ev, now)), ev);
    assert Since(l, l1) == [ev];
    FoldedOne(l.led.content, ev);
  }

  lemma HandleExtends(l: Live, ev: Event, now: int)
    ensures Extends(l, HandleLive(l, ev, now))
  {
    hide Extends, Quiet, HandleLive;
    if ev.StatusChanged? {
      StatusQuiet(l, ev.status, now);
      QuietExtends(l, HandleLive(l, ev, now));
    } else if Plain(ev) && !ev.HistoryRewritten? {
      PlainQuiet(l, ev, now);
      QuietExtends(l, HandleLive(l, ev, now));
    } else {
      ContentExtends(l, ev, now);
    }
  }

  lemma ScheduleQuietly(s: State, gen: nat)
    ensures Quiet(s.live, ScheduleSettle(s, gen).live)
  {
    SettleQuiet(s.live, None);
    assert s.live.out[|s.live.out|..] == [];
    hide SettleLive;
  }

  lemma HandledExtends(s: State, ev: Event, now: int)
    ensures Extends(s.live, Handle(s, ev, now).live)
  {
    hide Extends, Quiet, HandleLive, ScheduleSettle;
    HandleExtends(s.live, ev, now);
    var s1 := s.(live := HandleLive(s.live, ev, now));
    if !s.detached && IdleEdge(ev) {
      StatusQuiet(s.live, ev.status, now);
      ScheduleQuietly(s1, s1.live.st.gen);
      QuietOn(s.live, s1.live, ScheduleSettle(s1, s1.live.st.gen).live);
      QuietExtends(s.live, ScheduleSettle(s1, s1.live.st.gen).live);
    } else {
      Unchanged(s.live);
      QuietExtends(s.live, s.live);
    }
  }

  lemma Unchanged(l: Live)
    ensures Quiet(l, l)
  {
    assert l.out[|l.out|..] == [];
  }

  /** The reads and the budget only take content out of the ledger. */
  lemma LedgerGivesUp(l: L.LedgerState, op: LedgerOp)
    ensures Within(Ledgered(l, op).content, l.content) && (Exact(l.content) ==> Exact(Ledgered(l, op).content))
  {
    hide L.DropNow, L.OrphanNow, L.ConfirmNow, L.ClearsNow, L.Purged, L.Forgettable, FieldExact;
  }

  lemma LedgerExtends(l: Live, op: LedgerOp)
    ensures Extends(l, l.(led := Ledgered(l.led, op)))
  {
    hide Ledgered, Exact;
    LedgerGivesUp(l.led, op);
    assert l.out[|l.out|..] == [];
  }

  lemma FinishExtends(s: State, i: nat, lc: Option<Lifecycle>)
    ensures Extends(s.live, Do(s, SettleRead(i, lc)).live)
  {
    hide Extends, Quiet, SettleLive;
    Unchanged(s.live);
    QuietExtends(s.live, s.live);
    SettleQuiet(s.live, lc);
    QuietExtends(s.live, SettleLive(s.live, lc));
  }

  /** The step opens a new epoch. */
  predicate Opens(s: State, step: Step) { step.Connected? && !Stale(s, step.sink) && !s.sinkConnected }

  lemma StepExtends(s: State, step: Step)
    requires !Opens(s, step)
    ensures Extends(s.live, Do(s, step).live)
  {
    hide Extends, Quiet, Handle, Ledgered, SettleLive, L.AfterSettle, Connect, Effective;
    Unchanged(s.live);
    QuietExtends(s.live, s.live);
    match step
    case Emit(sink, ev, now) => HandledExtends(s, ev, now);
    case HubPublish(ev, at) => HandledExtends(s, ev, at);
    case SettleRead(i, lc) => FinishExtends(s, i, lc);
    case LedgerStep(op) => LedgerExtends(s.live, op);
    case WatchEnded => OverlayQuiet(s.live, s.live.ov.(liveConnect := false));
    case Detach(at) => DetachQuiet(s.live, at);
    case _ =>
  }

  lemma OverlayQuiet(l: Live, ov: Overlay)
    ensures Extends(l, l.(ov := ov))
  {
    Unchanged(l);
    QuietExtends(l, l.(ov := ov));
  }

  lemma DetachQuiet(l: Live, at: int)
    ensures Extends(l, l.(led := L.AfterSettle(l.led).(touched := at)))
  {
    Unchanged(l);
    QuietExtends(l, l.(led := L.AfterSettle(l.led).(touched := at)));
  }

  // ---- runs within an epoch ----

  ghost predicate SameEpoch(s: State, steps: seq<Step>)
    decreases |steps|
  {
    steps == [] || (!Opens(s, steps[0]) && SameEpoch(Do(s, steps[0]), steps[1..]))
  }

  /** The parts the ledger gave up on the way. */
  ghost function Dropped(s: State, steps: seq<Step>): set<string>
    requires SameEpoch(s, steps)
    decreases |steps|
  {
    if steps == [] then {}
    else
      StepExtends(s, steps[0]);
      GivenUp(s.live, Do(s, steps[0]).live) + Dropped(Do(s, steps[0]), steps[1..])
  }

  lemma StepFollows(l: Live, l1: Live, c: Content, dropped: set<string>)
    requires Follows(c, l.led.content, dropped) && Extends(l, l1)
    ensures Follows(Folded(c, Since(l, l1)), l1.led.content, dropped + GivenUp(l, l1))
  {
    hide Follows, Within, Folded, Exact;
    FollowsFolded(c, l.led.content, dropped, Since(l, l1));
    FollowsWithin(Folded(c, Since(l, l1)), Folded(l.led.content, Since(l, l1)), l1.led.content, dropped);
  }

  /** A client that holds the ledger's content and folds what is published goes on holding it. */
  lemma {:induction false} RunFollows(s: State, steps: seq<Step>, c: Content, dropped: set<string>)
    requires SameEpoch(s, steps) && Follows(c, s.live.led.content, dropped)
    ensures var t := Run(s, steps);
            && s.live.out <= t.live.out && t.live.start == s.live.start
            && Follows(Folded(c, Since(s.live, t.live)), t.live.led.content, dropped + Dropped(s, steps))
    decreases |steps|
  {
    hide Follows, Extends, Do, Folded, GivenUp, Opens;
    if steps == [] {
      assert Since(s.live, s.live) == [];
      NothingFolded(c);
      assert dropped + {} == dropped;
    } else {
      var s1, t := Do(s, steps[0]), Run(s, steps);
      StepExtends(s, steps[0]);
      ExtendsOut(s.live, s1.live);
      var evs := Since(s.live, s1.live);
      StepFollows(s.live, s1.live, c, dropped);
      RunFollows(s1, steps[1..], Folded(c, evs), dropped + GivenUp(s.live, s1.live));
      assert Since(s.live, t.live) == evs + Since(s1.live, t.live);
      FoldedConcat(c, evs, Since(s1.live, t.live));
      assert dropped + Dropped(s, steps) == dropped + GivenUp(s.live, s1.live) + Dropped(s1, steps[1..]);
    }
  }

  lemma ExtendsOut(l: Live, l1: Live)
    requires Extends(l, l1)
    ensures l.out <= l1.out && l1.start == l.start
  {
  }

  lemma NothingFolded(c: Content)
    ensures Folded(c, []) == c
  {
  }

  lemma {:induction false} FoldContent(c: C.Client, evs: seq<Event>)
    ensures C.Fold(c, evs).content == Folded(c.content, evs)
    decreases |evs|
  {
    hide Apply;
    if evs != [] {
      StepContent(c, evs[0]);
      FoldContent(C.Step(c, evs[0]), evs[1..]);
    }
  }

  lemma StepContent(c: C.Client, e: Event)
    ensures C.Step(c, e).content == Apply(c.content, e)
  {
  }

  // ---- what a client shows ----

  /** A client shows the session: its overlay, and all the content its ledger holds. */
  ghost predicate ShowsSession(c: C.Client, l: Live, untold: set<string>, dropped: set<string>) {
    Shows(c, View(l.ov, l.st.emitted), untold) && Follows(c.content, l.led.content, dropped)
  }

  /** A hello shows the session as it is. */
  lemma HelloShowsSession(l: Live)
    requires LiveInv(l) && Exact(l.led.content)
    ensures ShowsSession(Hello(l), l, Untold(l), {})
  {
    HelloShows(l);
    GreetedFollows(l.led.content);
    hide LiveInv, Greeted, Follows, Exact;
  }

  /**
   A client that shows the session and folds everything its epoch publishes from then on
   shows it at every later moment, whatever the reads and the budget take out of the ledger.
   */
  lemma ClientFollows(s: State, steps: seq<Step>, c: C.Client, untold: set<string>, dropped: set<string>)
    requires Inv(s) && Contracted(s, steps) && SameEpoch(s, steps)
    requires ShowsSession(c, s.live, untold, dropped)
    ensures var t := Run(s, steps);
            && s.live.out <= t.live.out
            && ShowsSession(C.Fold(c, Since(s.live, t.live)), t.live, untold, dropped + Dropped(s, steps))
  {
    hide Follows, Shows, Do, LiveInv, ReadsInv, Contract, Opens;
    var t := Run(s, steps);
    RunKeeps(s, steps);
    RunFollows(s, steps, c.content, dropped);
    FoldContent(c, Since(s.live, t.live));
    TracedView(s.live);
    assert t.live.out[..|s.live.out|] == s.live.out;
    ShowsBare(c, C.Fold(s.live.start, s.live.out), untold);
    OverlayFollows(t.live, c, untold, |s.live.out|);
  }

  lemma TracedView(l: Live)
    requires LiveInv(l)
    ensures Bare(C.Fold(l.start, l.out)) == View(l.ov, l.st.emitted)
  {
  }

  // ---- from the first connection on ----

  lemma ExactKeeps(s: State, step: Step)
    requires Exact(s.live.led.content)
    ensures Exact(Do(s, step).live.led.content)
  {
    hide Exact, Handle, ScheduleSettle, ConnectOverlay, Extends;
    if Opens(s, step) {
      var a := Arrive(s.(sinkConnected := true), step.seed);
      ScheduleQuietly(a, a.live.st.gen);
    } else {
      StepExtends(s, step);
      ExtendsExact(s.live, Do(s, step).live);
    }
  }

  lemma ExtendsExact(l: Live, l1: Live)
    requires Extends(l, l1) && Exact(l.led.content)
    ensures Exact(l1.led.content)
  {
  }

  lemma {:induction false} RunExact(s: State, steps: seq<Step>)
    requires Exact(s.live.led.content)
    ensures Exact(Run(s, steps).live.led.content)
    decreases |steps|
  {
    hide Exact, Do;
    if steps != [] {
      ExactKeeps(s, steps[0]);
      RunExact(Do(s, steps[0]), steps[1..]);
    }
  }

  /** Greeted at any moment of a session, a client that folds the rest of its epoch shows the session. */
  lemma GreetedClientFollows(settles: bool, led: L.LedgerState, before: seq<Step>, after: seq<Step>)
    requires Exact(led.content) && Contracted(NewSession(settles, led), before)
    requires Contracted(Run(NewSession(settles, led), before), after) && SameEpoch(Run(NewSession(settles, led), before), after)
    ensures var s := Run(NewSession(settles, led), before);
            var t := Run(s, after);
            && s.live.out <= t.live.out
            && ShowsSession(C.Fold(Hello(s.live), Since(s.live, t.live)), t.live, Untold(s.live), Dropped(s, after))
  {
    hide Exact, ShowsSession, Contracted, LiveInv, ReadsInv, Hello;
    var s := Run(NewSession(settles, led), before);
    NewSessionValid(settles, led);
    RunKeeps(NewSession(settles, led), before);
    RunExact(NewSession(settles, led), before);
    HelloShowsSession(s.live);
    ClientFollows(s, after, Hello(s.live), Untold(s.live), {});
    assert {} + Dropped(s, after) == Dropped(s, after);
  }
}

/** What every run of a session keeps: its turn edges, its levels, its overlay and its settle reads. */
module SessionRuns {
  import opened Events
  import opened SessionModel
  import C = Client
  import L = LedgerModel
  import SC = StreamContent

  // ---- turn edges ----

  /** Whether a turn is open after the events, given whether one was open before. */
  function Open(before: bool, evs: seq<Event>): bool {
    if evs == [] then before
    else
      var e := evs[|evs| - 1];
      if e.TurnStarted? then true else if e.TurnEnded? then false else Open(before, evs[..|evs| - 1])
  }

  /** A turn starts only when none is open and ends only when one is. */
  predicate Alternates(before: bool, evs: seq<Event>) {
    evs == []
    || (var most, e := evs[..|evs| - 1], evs[|evs| - 1];
        && Alternates(before, most)
        && (e.TurnStarted? ==> !Open(before, most))
        && (e.TurnEnded? ==> Open(before, most)))
  }

  // ---- the overlay as a fold of what was published ----

  function Bare(c: C.Client): C.Client { c.(content := SC.EMPTY) }

  /** A prompt event names a prompt this epoch has not resolved. */
  predicate FreshEvent(resolved: set<string>, e: Event) {
    && (e.PromptAsked? ==> e.prompt.id !in resolved)
    && (e.PromptJudge? ==> e.judge.promptId !in resolved)
    && (e.PromptResolved? ==> e.promptId !in resolved)
  }

  predicate Fresh(start: C.Client, evs: seq<Event>) {
    evs == []
    || (var most, e := evs[..|evs| - 1], evs[|evs| - 1];
        Fresh(start, most) && FreshEvent(C.Fold(start, most).resolved, e))
  }

  ghost predicate AbsoluteEvents(evs: seq<Event>) {
    forall e :: e in evs && e.StatusChanged? ==> C.Absolute(e.status)
  }

  ghost predicate UniqueIds(ps: seq<Prompt>) {
    forall i, j :: 0 <= i < j < |ps| ==> ps[i].id != ps[j].id
  }

  ghost predicate OverlayValid(ov: Overlay) {
    && UniqueIds(ov.prompts)
    && (forall p :: p in ov.prompts ==> p.id !in ov.resolved)
    && (forall id :: id in ov.judge ==> id !in ov.resolved)
  }

  predicate TurnOpen(l: Live) { l.st.turn || l.st.pendingEnd }

  /** What was published since the epoch opened accounts for the whole live state. */
  ghost predicate Traced(l: Live) {
    && !(l.st.turn && l.st.pendingEnd)
    && Alternates(l.seededBusy, l.out) && Open(l.seededBusy, l.out) == TurnOpen(l)
    && OverlayValid(l.ov)
    && Bare(C.Fold(l.start, l.out)) == View(l.ov, l.st.emitted)
    && Fresh(l.start, l.out)
    && AbsoluteEvents(l.out)
    && C.Absolute(l.st.base) && C.Absolute(l.st.emitted)
    && C.WellFormed(l.start)
  }

  /** The level shown is the effective one. */
  predicate LevelShown(l: Live) { l.st.emitted == Effective(l.ov, l.st.base) }

  ghost predicate LiveInv(l: Live) { Traced(l) && LevelShown(l) }

  // ---- settle reads ----

  /** At most one reader runs, and what waits is at least as new as what it reads. */
  ghost predicate SettlementValid(s: State) {
    && (s.settlement.reading <==> s.settlement.pending.Some?)
    && |s.readers| == (if s.settlement.reading then 1 else 0)
    && (s.settlement.pending.Some? ==>
          && s.settlement.pending.value.gen <= s.live.st.gen
          && s.settlement.pending.value.epoch <= s.gen
          && forall r :: r in s.readers ==>
               r.gen < s.settlement.pending.value.gen || r == s.settlement.pending.value)
  }

  ghost predicate ConnectionValid(s: State) {
    && (s.connected && !s.detached && !s.stopping ==> s.everConnected && s.sinkConnected && !s.sinkClosed)
    && (s.sinkConnected ==> s.everConnected)
    && (!s.everConnected ==> s.readers == [])
  }

  /** The newest idle edge has a reader whose pending request carries its generation. */
  ghost predicate EndPending(s: State) {
    s.connected && !s.detached && !s.stopping && s.live.st.pendingEnd ==>
      s.settles && s.settlement.pending == Some(Request(s.live.st.gen, s.gen))
  }

  ghost predicate ReadsInv(s: State) { SettlementValid(s) && ConnectionValid(s) && EndPending(s) }

  ghost predicate Inv(s: State) { LiveInv(s.live) && ReadsInv(s) }

  // ---- lemmas about the overlay ----

  lemma {:induction false} PutKeeps(ps: seq<Prompt>, p: Prompt)
    requires UniqueIds(ps)
    ensures UniqueIds(PutPrompt(ps, p)) && PromptMap(PutPrompt(ps, p)) == PromptMap(ps)[p.id := p]
    ensures forall q :: q in PutPrompt(ps, p) ==> q == p || q in ps
    ensures PutPrompt(ps, p) != []
  {
    if ps == [] {
      assert [p][1..] == [];
    } else if ps[0].id == p.id {
      assert ([p] + ps[1..])[1..] == ps[1..];
    } else {
      PutKeeps(ps[1..], p);
      var r := PutPrompt(ps[1..], p);
      assert ([ps[0]] + r)[1..] == r;
      forall i | 0 <= i < |r|
        ensures r[i].id != ps[0].id
      {
        assert r[i] in r;
      }
    }
  }

  lemma {:induction false} PutAt(ps: seq<Prompt>, p: Prompt, i: nat)
    requires i <= |ps| && (forall j :: 0 <= j < i ==> ps[j].id != p.id) && (i < |ps| ==> ps[i].id == p.id)
    ensures PutPrompt(ps, p) == if i < |ps| then ps[i := p] else ps + [p]
  {
    if ps != [] && i > 0 {
      PutAt(ps[1..], p, i - 1);
    }
  }

  lemma {:induction false} CutAt(ps: seq<Prompt>, id: string, i: nat)
    requires i <= |ps| && (forall j :: 0 <= j < i ==> ps[j].id != id) && (i < |ps| ==> ps[i].id == id)
    ensures CutPrompt(ps, id) == if i < |ps| then ps[..i] + ps[i + 1..] else ps
  {
    if ps != [] && i > 0 {
      CutAt(ps[1..], id, i - 1);
    }
  }

  lemma {:induction false} MapIds(ps: seq<Prompt>, id: string)
    ensures id in PromptMap(ps) <==> exists p :: p in ps && p.id == id
  {
    if ps != [] {
      MapIds(ps[1..], id);
    }
  }

  lemma {:induction false} CutKeeps(ps: seq<Prompt>, id: string)
    requires UniqueIds(ps)
    ensures UniqueIds(CutPrompt(ps, id)) && PromptMap(CutPrompt(ps, id)) == PromptMap(ps) - {id}
    ensures forall q :: q in CutPrompt(ps, id) ==> q in ps && q.id != id
  {
    if ps == [] {
    } else if ps[0].id == id {
      MapIds(ps[1..], id);
    } else {
      hide UniqueIds;
      UniqueTail(ps);
      CutKeeps(ps[1..], id);
      HeadUnique(ps[0], CutPrompt(ps[1..], id));
      CutMap(PromptMap(ps[1..]), ps[0], id);
    }
  }

  lemma CutMap(m: map<string, Prompt>, p: Prompt, id: string)
    requires p.id != id
    ensures (m - {id})[p.id := p] == m[p.id := p] - {id}
  {
  }

  lemma UniqueTail(ps: seq<Prompt>)
    requires UniqueIds(ps) && ps != []
    ensures UniqueIds(ps[1..]) && forall q :: q in ps[1..] ==> q.id != ps[0].id
  {
  }

  lemma HeadUnique(p: Prompt, r: seq<Prompt>)
    requires UniqueIds(r) && forall q :: q in r ==> q.id != p.id
    ensures UniqueIds([p] + r) && ([p] + r)[1..] == r
  {
    forall i | 0 <= i < |r|
      ensures r[i].id != p.id
    {
      assert r[i] in r;
    }
  }

  lemma AskValid(ov: Overlay, p: Prompt)
    requires OverlayValid(ov)
    ensures OverlayValid(AskOverlay(ov, p))
    ensures AskOverlay(ov, p).resolved == ov.resolved && AskOverlay(ov, p).judge == ov.judge
  {
    PutKeeps(ov.prompts, p);
  }

  lemma {:induction false} AskAllValid(ov: Overlay, ps: seq<Prompt>)
    requires OverlayValid(ov)
    ensures OverlayValid(AskAll(ov, ps))
    ensures AskAll(ov, ps).resolved == ov.resolved && AskAll(ov, ps).judge == ov.judge
  {
    if ps != [] {
      AskAllValid(ov, ps[..|ps| - 1]);
      AskValid(AskAll(ov, ps[..|ps| - 1]), ps[|ps| - 1]);
    }
  }

  // ---- one published event ----

  /** `e` does to the shown state exactly what it does to a client. */
  ghost predicate Publishes(l: Live, l1: Live, e: Event) {
    && l1.out == l.out && l1.start == l.start && l1.seededBusy == l.seededBusy
    && View(l1.ov, l1.st.emitted) == Bare(C.Step(View(l.ov, l.st.emitted), e))
    && FreshEvent(l.ov.resolved, e)
    && (e.StatusChanged? ==> C.Absolute(e.status))
    && (e.TurnStarted? ==> !TurnOpen(l)) && (e.TurnEnded? ==> TurnOpen(l))
    && TurnOpen(l1) == (if e.TurnStarted? then true else if e.TurnEnded? then false else TurnOpen(l))
    && !(l1.st.turn && l1.st.pendingEnd)
    && OverlayValid(l1.ov)
    && C.Absolute(l1.st.base) && C.Absolute(l1.st.emitted)
  }

  lemma BareStep(c: C.Client, e: Event)
    ensures Bare(C.Step(c, e)) == Bare(C.Step(Bare(c), e))
  {
  }

  lemma PublishTraced(l: Live, l1: Live, e: Event)
    requires Traced(l) && Publishes(l, l1, e)
    ensures Traced(Publish(l1, e))
  {
    var out := l.out + [e];
    assert out[..|out| - 1] == l.out && out[|out| - 1] == e;
    C.FoldLast(l.start, l.out, e);
    BareStep(C.Fold(l.start, l.out), e);
    assert C.Fold(l.start, l.out).resolved == l.ov.resolved;
  }

  lemma EmitTraced(l: Live)
    requires Traced(l)
    ensures LiveInv(EmitStatus(l))
  {
    var e := Effective(l.ov, l.st.base);
    if e != l.st.emitted {
      PublishTraced(l, l.(st := l.st.(emitted := e)), StatusChanged(e));
    }
  }

  lemma EndPendingTraced(l: Live, outcome: StatusKind, latest: string, gen: nat)
    requires Traced(l)
    ensures Traced(EndPendingTurn(l, outcome, latest, gen))
  {
    if l.st.pendingEnd {
      PublishTraced(l, l.(st := l.st.(pendingEnd := false, gen := gen)), TurnEnded(outcome, latest));
    }
  }

  lemma StartTraced(l: Live)
    requires Traced(l)
    ensures Traced(StartTurn(l)) && StartTurn(l).st.turn
  {
    EndPendingTraced(l, Done, "", l.st.gen + 1);
    var l1 := EndPendingTurn(l, Done, "", l.st.gen + 1);
    if !l1.st.turn {
      PublishTraced(l1, l1.(st := l1.st.(turn := true)), TurnStarted(0));
    }
  }

  lemma EndTraced(l: Live, outcome: StatusKind)
    requires Traced(l)
    ensures Traced(EndTurn(l, outcome)) && !TurnOpen(EndTurn(l, outcome))
  {
    if TurnOpen(l) {
      PublishTraced(l, l.(st := l.st.(gen := l.st.gen + 1, turn := false, pendingEnd := false)), TurnEnded(outcome, ""));
    }
  }

  lemma RebaseTraced(l: Live, base: Status)
    requires Traced(l) && C.Absolute(base)
    ensures LiveInv(EmitStatus(l.(st := l.st.(base := base))))
  {
    EmitTraced(l.(st := l.st.(base := base)));
  }

  lemma SettleTraced(l: Live, lc: Option<Lifecycle>)
    requires LiveInv(l)
    ensures LiveInv(SettleLive(l, lc))
  {
    var (outcome, level) := SettledOutcome(lc);
    var latest := if lc.Some? then lc.value.latest else "";
    EndPendingTraced(l, outcome, latest, l.st.gen);
    var l1 := EndPendingTurn(l, outcome, latest, l.st.gen);
    if level.Some? && level.value != Waiting {
      LedgerTraced(l1, SettleLedger(l1).led);
      l1 := SettleLedger(l1);
    }
    if level.Some? && l1.st.base.provisional {
      RebaseTraced(l1, Status(level.value, false, Cleared, 0));
    }
  }

  /** The ledger is not part of what the events account for. */
  lemma LedgerTraced(l: Live, led: L.LedgerState)
    requires Traced(l)
    ensures Traced(l.(led := led))
  {
  }

  lemma IdleTraced(l: Live)
    requires LiveInv(l)
    ensures LiveInv(IdleLive(l))
  {
    var l0 := l.(st := l.st.(gen := l.st.gen + 1, turn := false, pendingEnd := l.st.pendingEnd || l.st.turn));
    assert Traced(l0);
    LedgerTraced(l0, SettleLedger(l0).led);
    var l1 := SettleLedger(l0);
    RebaseTraced(l1, IDLE);
  }

  lemma LevelTraced(l: Live, ev: Status)
    requires LiveInv(l)
    ensures LiveInv(LevelLive(l, ev))
  {
    StartTraced(l);
    EndTraced(l, ev.kind);
    LedgerTraced(EndTurn(l, ev.kind), SettleLedger(EndTurn(l, ev.kind)).led);
    RebaseTraced(Edge(l, ev.kind), Absolute(ev));
  }

  lemma AskTraced(l: Live, p: Prompt)
    requires LiveInv(l) && p.id !in l.ov.resolved
    ensures LiveInv(EmitStatus(Publish(l.(ov := AskOverlay(l.ov, p)), PromptAsked(p))))
  {
    AskValid(l.ov, p);
    PutKeeps(l.ov.prompts, p);
    PublishTraced(l, l.(ov := AskOverlay(l.ov, p)), PromptAsked(p));
    EmitTraced(Publish(l.(ov := AskOverlay(l.ov, p)), PromptAsked(p)));
  }

  lemma ResolveTraced(l: Live, id: string)
    requires LiveInv(l) && id !in l.ov.resolved
    ensures LiveInv(EmitStatus(Publish(l.(ov := ResolveOverlay(l.ov, id)), PromptResolved(id))))
  {
    CutKeeps(l.ov.prompts, id);
    PublishTraced(l, l.(ov := ResolveOverlay(l.ov, id)), PromptResolved(id));
    EmitTraced(Publish(l.(ov := ResolveOverlay(l.ov, id)), PromptResolved(id)));
  }

  lemma JudgeTraced(l: Live, j: Judge)
    requires LiveInv(l)
    ensures LiveInv(HandleLive(l, PromptJudge(j), 0))
  {
    if j.promptId !in l.ov.resolved {
      PublishTraced(l, l.(ov := l.ov.(judge := l.ov.judge[j.promptId := j])), PromptJudge(j));
    }
  }

  lemma BackgroundTraced(l: Live, b: Background)
    requires LiveInv(l)
    ensures LiveInv(HandleLive(l, BackgroundChanged(b), 0))
  {
    PublishTraced(l, l.(ov := l.ov.(background := b)), BackgroundChanged(b));
  }

  lemma QueueTraced(l: Live, q: seq<int>)
    requires LiveInv(l)
    ensures LiveInv(HandleLive(l, QueueChanged(q), 0))
  {
    PublishTraced(l, l.(ov := l.ov.(queue := Some(q))), QueueChanged(q));
  }

  lemma PlainTraced(l: Live, ev: Event, now: int)
    requires LiveInv(l) && !IsTurnEdge(ev)
    requires !ev.StatusChanged? && !ev.PromptAsked? && !ev.PromptJudge? && !ev.PromptResolved?
    requires !ev.BackgroundChanged? && !ev.QueueChanged?
    ensures LiveInv(Publish(l.(led := L.AfterEvent(l.led, ev, now)), ev))
  {
    hide L.AfterEvent;
    PublishTraced(l, l.(led := L.AfterEvent(l.led, ev, now)), ev);
  }

  lemma HandleTraced(l: Live, ev: Event, now: int)
    requires LiveInv(l) && !IsTurnEdge(ev)
    ensures LiveInv(HandleLive(l, ev, now))
  {
    hide LiveInv, L.AfterEvent;
    match ev {
      case StatusChanged(status) =>
        IdleTraced(l);
        LevelTraced(l, status);
      case PromptAsked(p) =>
        if p.id !in l.ov.resolved {
          AskTraced(l, p);
        }
      case PromptResolved(id) =>
        if id !in l.ov.resolved {
          ResolveTraced(l, id);
        }
      case PromptJudge(j) => JudgeTraced(l, j);
      case BackgroundChanged(b) => BackgroundTraced(l, b);
      case QueueChanged(q) => QueueTraced(l, q);
      case StreamControl(_) =>
      case _ => PlainTraced(l, ev, now);
    }
  }

  // ---- settle reads ----

  /** Scheduling for the current generation leaves its idle edge with a reader. */
  lemma ScheduleKeeps(s: State)
    requires LiveInv(s.live) && SettlementValid(s) && ConnectionValid(s) && s.everConnected
    requires s.settlement.pending.Some? ==> s.settlement.pending.value.gen < s.live.st.gen
    ensures Inv(ScheduleSettle(s, s.live.st.gen))
  {
    SettleTraced(s.live, None);
  }

  lemma HandleKeeps(s: State, ev: Event, now: int)
    requires Inv(s) && s.everConnected && !IsTurnEdge(ev)
    ensures Inv(Handle(s, ev, now))
  {
    if !s.detached {
      HandleTraced(s.live, ev, now);
      if IdleEdge(ev) {
        ScheduleKeeps(s.(live := HandleLive(s.live, ev, now)));
      }
    }
  }

  lemma FinishKeeps(s: State, i: nat, lc: Option<Lifecycle>)
    requires Inv(s) && i < |s.readers| && s.settlement.pending.Some?
    ensures Inv(FinishSettlement(s, i, lc))
  {
    hide Traced;
    SettleTraced(s.live, lc);
    FinishReads(s, i, lc);
  }

  lemma FinishReads(s: State, i: nat, lc: Option<Lifecycle>)
    requires ReadsInv(s) && i < |s.readers| && s.settlement.pending.Some?
    ensures ReadsInv(FinishSettlement(s, i, lc))
  {
    assert i == 0 && s.readers == [s.readers[0]];
    assert s.readers[..i] + s.readers[i + 1..] == [];
    assert s.readers[0] in s.readers;
  }

  // ---- connections ----

  lemma ViewWellFormed(ov: Overlay, status: Status)
    requires OverlayValid(ov)
    ensures C.WellFormed(View(ov, status)) && Bare(View(ov, status)) == View(ov, status)
  {
    forall id | id in ov.resolved
      ensures id !in PromptMap(ov.prompts)
    {
      MapIds(ov.prompts, id);
    }
  }

  lemma ConnectOverlayValid(ov: Overlay, reconnect: bool, seed: Seed)
    requires OverlayValid(ov)
    ensures OverlayValid(ConnectOverlay(ov, reconnect, seed))
  {
    var base := if reconnect then NEW_OVERLAY.(background := ov.background, queue := ov.queue) else ov;
    AskAllValid(base.(liveConnect := true), seed.prompts);
  }

  /** An epoch that opens shows its own overlay and has no edge yet. */
  lemma EpochOpens(l: Live)
    requires OverlayValid(l.ov) && C.Absolute(l.st.base) && !l.st.pendingEnd
    ensures LiveInv(OpenEpoch(l))
  {
    ViewWellFormed(l.ov, Effective(l.ov, l.st.base));
  }

  /** With no turn to end, asking for a settle read leaves the live state alone. */
  lemma ScheduleQuiet(s: State, gen: nat, l: Live)
    requires !s.live.st.pendingEnd && !l.st.pendingEnd
    ensures ScheduleSettle(s, gen).live == s.live
    ensures ScheduleSettle(s.(live := l), gen) == ScheduleSettle(s, gen).(live := l)
  {
    SettleNothing(s.live);
    SettleNothing(l);
    hide SettleLive;
  }

  lemma SettleNothing(l: Live)
    requires !l.st.pendingEnd
    ensures SettleLive(l, None) == l
  {
  }

  lemma ConnectKeeps(s: State, seed: Seed)
    requires LiveInv(s.live) && SettlementValid(s) && s.sinkConnected && !s.sinkClosed
    ensures Inv(Connect(s, seed))
  {
    assert OverlayValid(s.live.ov);
    hide OverlayValid, Alternates, Open, Fresh, AbsoluteEvents, Traced, ConnectOverlay, Bare, View;
    var a := Arrive(s, seed);
    ConnectOverlayValid(s.live.ov, s.everConnected, seed);
    EpochOpens(a.live);
    if seed.status.None? {
      ScheduleQuiet(a, a.live.st.gen, OpenEpoch(a.live));
      ScheduleKeeps(a.(live := OpenEpoch(a.live)));
    }
  }

  lemma DoKeeps(s: State, step: Step)
    requires Inv(s) && Contract(s, step)
    ensures Inv(Do(s, step))
  {
    match step {
      case Connected(sink, seed) =>
        if !Stale(s, sink) && !s.sinkConnected {
          ConnectKeeps(s.(sinkConnected := true), seed);
        }
      case Emit(sink, ev, now) =>
        if !Stale(s, sink) {
          HandleKeeps(s, ev, now);
        }
      case HubPublish(ev, at) =>
        if s.everConnected {
          HandleKeeps(s, ev, at);
        }
      case LedgerStep(op) => LedgerTraced(s.live, Ledgered(s.live.led, op));
      case Detach(at) => LedgerTraced(s.live, L.AfterSettle(s.live.led).(touched := at));
      case SettleRead(i, lc) =>
        if i < |s.readers| && s.settlement.pending.Some? {
          FinishKeeps(s, i, lc);
        }
      case _ =>
    }
  }

  lemma NewSessionValid(settles: bool, led: L.LedgerState)
    ensures Inv(NewSession(settles, led))
  {
    ViewWellFormed(NEW_OVERLAY, IDLE);
  }

  /** In every run: edges, levels, overlay and settle reads stay consistent. */
  lemma {:induction false} RunKeeps(s: State, steps: seq<Step>)
    requires Inv(s) && Contracted(s, steps)
    ensures Inv(Run(s, steps))
    decreases |steps|
  {
    if steps != [] {
      DoKeeps(s, steps[0]);
      RunKeeps(Do(s, steps[0]), steps[1..]);
    }
  }

  // ---- what it means for the published events ----

  lemma {:induction false} AlternatesPrefix(before: bool, evs: seq<Event>, i: nat)
    requires Alternates(before, evs) && i < |evs|
    ensures Alternates(before, evs[..i])
    ensures evs[i].TurnStarted? ==> !Open(before, evs[..i])
    ensures evs[i].TurnEnded? ==> Open(before, evs[..i])
  {
    var most := evs[..|evs| - 1];
    if i < |most| {
      AlternatesPrefix(before, most, i);
      assert most[..i] == evs[..i];
    }
  }

  lemma {:induction false} OpenUntil(before: bool, evs: seq<Event>, i: nat, j: nat)
    requires i <= j <= |evs| && forall k :: i <= k < j ==> !IsTurnEdge(evs[k])
    ensures Open(before, evs[..j]) == Open(before, evs[..i])
  {
    if i < j {
      assert evs[..j][..j - 1] == evs[..j - 1];
      OpenUntil(before, evs, i, j - 1);
    }
  }

  /** Neighbouring turn edges are never of the same kind, and the first is an end only if a turn was open. */
  lemma EdgesAlternate(before: bool, evs: seq<Event>, i: nat, j: nat)
    requires Alternates(before, evs) && i <= j < |evs| && IsTurnEdge(evs[j])
    requires forall k :: i < k < j ==> !IsTurnEdge(evs[k])
    ensures i < j && IsTurnEdge(evs[i]) ==> evs[i].TurnStarted? == evs[j].TurnEnded?
    ensures (forall k :: 0 <= k < j ==> !IsTurnEdge(evs[k])) ==> (evs[j].TurnEnded? <==> before)
  {
    AlternatesPrefix(before, evs, j);
    if i < j && IsTurnEdge(evs[i]) {
      OpenUntil(before, evs, i + 1, j);
      assert evs[..i + 1][..i] == evs[..i];
    }
    if forall k :: 0 <= k < j ==> !IsTurnEdge(evs[k]) {
      OpenUntil(before, evs, 0, j);
    }
  }

  lemma {:induction false} FreshAt(start: C.Client, evs: seq<Event>, i: nat)
    requires Fresh(start, evs) && i < |evs|
    ensures FreshEvent(C.Fold(start, evs[..i]).resolved, evs[i])
  {
    var most := evs[..|evs| - 1];
    if i < |most| {
      FreshAt(start, most, i);
      assert most[..i] == evs[..i];
    }
  }

  lemma {:induction false} ResolvedGrows(start: C.Client, evs: seq<Event>, i: nat)
    requires i <= |evs|
    ensures C.Fold(start, evs[..i]).resolved <= C.Fold(start, evs).resolved
  {
    if i < |evs| {
      var most, e := evs[..|evs| - 1], evs[|evs| - 1];
      assert evs == most + [e] && most[..i] == evs[..i];
      C.FoldLast(start, most, e);
      ResolvedGrows(start, most, i);
    } else {
      assert evs[..i] == evs;
    }
  }

  /** Once resolved, a prompt is never asked, judged or resolved again in its epoch. */
  lemma ResolvedForGood(start: C.Client, evs: seq<Event>, i: nat, j: nat, id: string)
    requires Fresh(start, evs) && i < j < |evs| && evs[i] == PromptResolved(id)
    ensures !(evs[j].PromptAsked? && evs[j].prompt.id == id)
    ensures !(evs[j].PromptJudge? && evs[j].judge.promptId == id)
    ensures evs[j] != PromptResolved(id)
  {
    FreshAt(start, evs, j);
    assert evs[..i + 1] == evs[..i] + [evs[i]];
    C.FoldLast(start, evs[..i], evs[i]);
    ResolvedGrows(start, evs[..j], i + 1);
    assert evs[..j][..i + 1] == evs[..i + 1];
  }

  /**
   Every contracted run of a new session: edges alternate, resolved prompts stay resolved,
   the level shown is the effective one and waits while a prompt is open, and at most one
   settle reader runs.
   */
  lemma SessionIsSafe(settles: bool, led: L.LedgerState, steps: seq<Step>)
    requires Contracted(NewSession(settles, led), steps)
    ensures var s := Run(NewSession(settles, led), steps);
            && !(s.live.st.turn && s.live.st.pendingEnd)
            && Alternates(s.live.seededBusy, s.live.out)
            && Open(s.live.seededBusy, s.live.out) == (s.live.st.turn || s.live.st.pendingEnd)
            && Fresh(s.live.start, s.live.out)
            && s.live.st.emitted == Effective(s.live.ov, s.live.st.base)
            && C.Fold(s.live.start, s.live.out).status == s.live.st.emitted
            && (s.live.ov.prompts != [] ==> s.live.st.emitted.kind == Waiting)
            && |s.readers| <= 1
  {
    NewSessionValid(settles, led);
    RunKeeps(NewSession(settles, led), steps);
  }

  // ---- settle reads ----

  /** A read overtaken by a newer edge, or asked for another connection, publishes nothing. */
  lemma OvertakenReadIsSilent(s: State, i: nat, lc: Option<Lifecycle>)
    requires i < |s.readers| && s.settlement.pending.Some?
    requires s.readers[i].gen != s.live.st.gen || s.readers[i].epoch != s.gen
    ensures FinishSettlement(s, i, lc).live == s.live
  {
  }

  /** A settled read changes the level only where an idle edge left it provisional. */
  lemma SettleOnlyLifts(s: State, i: nat, lc: Option<Lifecycle>)
    requires i < |s.readers| && s.settlement.pending.Some?
    ensures FinishSettlement(s, i, lc).live.st.base != s.live.st.base ==> s.live.st.base.provisional
  {
  }

  /**
   While the connection is current, the reader that ends a pending turn is the one asked
   for the newest idle edge: it publishes the settled outcome, and an older reader reads
   again for that edge instead.
   */
  lemma NewestEdgeEndsTurn(s: State, i: nat, lc: Option<Lifecycle>)
    requires Inv(s) && i < |s.readers| && s.settlement.pending.Some?
    requires s.connected && !s.detached && !s.stopping && s.live.st.pendingEnd
    ensures var t := FinishSettlement(s, i, lc);
            if s.readers[i] == Request(s.live.st.gen, s.gen)
            then
              && !t.live.st.pendingEnd && t.readers == []
              && |t.live.out| > |s.live.out| && t.live.out[..|s.live.out|] == s.live.out
              && t.live.out[|s.live.out|] ==
                   TurnEnded(SettledOutcome(lc).0, if lc.Some? then lc.value.latest else "")
            else t == s.(readers := [Request(s.live.st.gen, s.gen)])
  {
    assert s.readers[i] in s.readers;
    assert i == 0 && s.readers == [s.readers[0]];
    assert s.readers[..i] + s.readers[i + 1..] == [];
  }

  // ---- clients ----

  /** A client shows the session's overlay, except judges it was never told of. */
  ghost predicate Shows(c: C.Client, d: C.Client, untold: set<string>) {
    && c.status == d.status && c.prompts == d.prompts && c.background == d.background && c.queue == d.queue
    && c.resolved <= d.resolved
    && C.WellFormed(c) && C.WellFormed(d)
    && forall id :: Lookup(c.judge, id) == Lookup(d.judge, id) || (id in untold && id !in c.judge)
  }

  lemma ShowsStep(c: C.Client, d: C.Client, untold: set<string>, e: Event)
    requires Shows(c, d, untold) && FreshEvent(d.resolved, e)
    ensures Shows(C.Step(c, e), C.Step(d, e), untold)
  {
    C.StepWellFormed(c, e);
    C.StepWellFormed(d, e);
    var c', d' := C.Step(c, e), C.Step(d, e);
    forall id
      ensures Lookup(c'.judge, id) == Lookup(d'.judge, id) || (id in untold && id !in c'.judge)
    {
      assert Lookup(c.judge, id) == Lookup(d.judge, id) || (id in untold && id !in c.judge);
    }
  }

  /** It keeps doing so over every event the session publishes. */
  lemma {:induction false} ShowsFold(c: C.Client, d: C.Client, untold: set<string>, evs: seq<Event>)
    requires Shows(c, d, untold) && Fresh(d, evs)
    ensures Shows(C.Fold(c, evs), C.Fold(d, evs), untold)
  {
    if evs != [] {
      var most, e := evs[..|evs| - 1], evs[|evs| - 1];
      assert evs == most + [e];
      C.FoldLast(c, most, e);
      C.FoldLast(d, most, e);
      ShowsFold(c, d, untold, most);
      ShowsStep(C.Fold(c, most), C.Fold(d, most), untold, e);
    }
  }

  lemma {:induction false} FreshSuffix(start: C.Client, evs: seq<Event>, i: nat)
    requires Fresh(start, evs) && i <= |evs|
    ensures Fresh(C.Fold(start, evs[..i]), evs[i..])
  {
    if i < |evs| {
      var most, e := evs[..|evs| - 1], evs[|evs| - 1];
      var tail := evs[i..];
      FreshSuffix(start, most, i);
      assert most[..i] == evs[..i] && tail[..|tail| - 1] == most[i..];
      assert most == evs[..i] + most[i..];
      C.FoldConcat(start, evs[..i], most[i..]);
    }
  }

  /** The content a client makes of a snapshot: every message and every rendered part. */
  function Greeted(c: SC.Content): SC.Content {
    SC.Content(c.msgs, map p | p in c.parts :: SC.UpsertPart(None, SC.Render(c.parts[p]), false))
  }

  /** The overlay a cold client is greeted with: judges only of open prompts, and the ledger's content. */
  function Hello(l: Live): C.Client {
    var judge := map id | id in l.ov.judge && id in PromptMap(l.ov.prompts) :: l.ov.judge[id];
    View(l.ov, Effective(l.ov, l.st.base)).(judge := judge, resolved := {}, content := Greeted(l.led.content))
  }

  /** The judges a cold client is not told of: those of prompts not open. */
  function Untold(l: Live): set<string> { l.ov.judge.Keys - PromptMap(l.ov.prompts).Keys }

  lemma ShowsBare(c: C.Client, d: C.Client, untold: set<string>)
    ensures Shows(c, Bare(d), untold) == Shows(c, d, untold)
  {
  }

  lemma HelloShows(l: Live)
    requires LiveInv(l)
    ensures Shows(Hello(l), View(l.ov, l.st.emitted), Untold(l))
  {
    ViewWellFormed(l.ov, l.st.emitted);
  }

  // ---- what a hello leaves out ----

  ghost predicate AskedIn(start: C.Client, evs: seq<Event>, id: string) {
    id in start.prompts || exists e :: e in evs && e.PromptAsked? && e.prompt.id == id
  }

  ghost predicate JudgedIn(start: C.Client, evs: seq<Event>, id: string) {
    id in start.judge || exists e :: e in evs && e.PromptJudge? && e.judge.promptId == id
  }

  ghost predicate ResolvedIn(start: C.Client, evs: seq<Event>, id: string) {
    id in start.resolved || PromptResolved(id) in evs
  }

  /** A prompt not resolved is open once it was asked, and judged once it was judged. */
  lemma {:induction false} FoldTells(start: C.Client, evs: seq<Event>, id: string)
    requires C.WellFormed(start)
    ensures var c := C.Fold(start, evs);
            && (id in c.resolved <==> ResolvedIn(start, evs, id))
            && (id !in c.resolved ==> (id in c.judge <==> JudgedIn(start, evs, id)) && (id in c.prompts <==> AskedIn(start, evs, id)))
  {
    if evs != [] {
      var most, e := evs[..|evs| - 1], evs[|evs| - 1];
      assert evs == most + [e];
      C.FoldLast(start, most, e);
      FoldTells(start, most, id);
      TellsLast(start, most, e, id);
      hide ResolvedIn, AskedIn, JudgedIn, C.Fold, C.Step;
      TellsStep(C.Fold(start, most), e, id);
    }
  }

  lemma TellsStep(c: C.Client, e: Event, id: string)
    ensures var d := C.Step(c, e);
            && (id in d.resolved <==> id in c.resolved || e == PromptResolved(id))
            && (id !in d.resolved ==>
                  && (id in d.judge <==> id in c.judge || (e.PromptJudge? && e.judge.promptId == id))
                  && (id in d.prompts <==> id in c.prompts || (e.PromptAsked? && e.prompt.id == id)))
  {
  }

  lemma TellsLast(start: C.Client, evs: seq<Event>, e: Event, id: string)
    ensures ResolvedIn(start, evs + [e], id) <==> ResolvedIn(start, evs, id) || e == PromptResolved(id)
    ensures JudgedIn(start, evs + [e], id) <==> JudgedIn(start, evs, id) || (e.PromptJudge? && e.judge.promptId == id)
    ensures AskedIn(start, evs + [e], id) <==> AskedIn(start, evs, id) || (e.PromptAsked? && e.prompt.id == id)
  {
    assert forall x :: x in evs + [e] <==> x in evs || x == e;
  }

  /**
   A hello restates every judge exactly when each prompt its epoch judged was also asked in
   it, or is resolved.
   */
  lemma HelloIsWhole(l: Live)
    requires LiveInv(l)
    ensures Hello(l).judge == l.ov.judge
       <==> forall id :: JudgedIn(l.start, l.out, id) ==> AskedIn(l.start, l.out, id) || ResolvedIn(l.start, l.out, id)
  {
    var c := C.Fold(l.start, l.out);
    assert Bare(c) == View(l.ov, l.st.emitted);
    C.FoldWellFormed(l.start, l.out);
    forall id
      ensures id in l.ov.judge && id !in PromptMap(l.ov.prompts)
         <==> JudgedIn(l.start, l.out, id) && !AskedIn(l.start, l.out, id) && !ResolvedIn(l.start, l.out, id)
    {
      FoldTells(l.start, l.out, id);
    }
    hide JudgedIn, AskedIn, ResolvedIn, Traced;
    HelloJudges(l);
  }

  lemma HelloJudges(l: Live)
    ensures Hello(l).judge == l.ov.judge <==> forall id :: id in l.ov.judge ==> id in PromptMap(l.ov.prompts)
  {
    if exists id :: id in l.ov.judge && id !in PromptMap(l.ov.prompts) {
      var id :| id in l.ov.judge && id !in PromptMap(l.ov.prompts);
      assert id !in Hello(l).judge;
    }
  }

  const EARLY: Judge := Judge("p", 0)

  /**
   A source may judge a prompt it has not asked: the client attached before shows the judge,
   and a hello sent afterwards leaves it out.
   */
  lemma HelloLeavesJudgeOut(settles: bool, led: L.LedgerState)
    ensures var connecting := [NewSink, Connected(1, Seed(Some(IDLE), [], None))];
            var steps := connecting + [Emit(1, PromptJudge(EARLY), 0)];
            && Contracted(NewSession(settles, led), steps)
            && var s, t := Run(NewSession(settles, led), connecting), Run(NewSession(settles, led), steps);
            && s.live.out == [] && t.live.out == [PromptJudge(EARLY)]
            && C.Fold(Hello(s.live), t.live.out).judge == map["p" := EARLY]
            && Hello(t.live).judge == map[]
  {
    hide Do, Run, Contracted, C.Fold, Stale;
    var s0 := NewSession(settles, led);
    var c1, c2, c3 := NewSink, Connected(1, Seed(Some(IDLE), [], None)), Emit(1, PromptJudge(EARLY), 0);
    var s1 := Do(s0, c1);
    var s2 := Do(s1, c2);
    EarlySteps(settles, led);
    assert [c1, c2] + [c3] == [c1, c2, c3];
    RunsTwo(s0, c1, c2);
    RunsThree(s0, c1, c2, c3);
    C.FoldLast(Hello(s2.live), [], PromptJudge(EARLY));
    assert [] + [PromptJudge(EARLY)] == [PromptJudge(EARLY)];
    FoldNothing(Hello(s2.live));
  }

  lemma FoldNothing(c: C.Client)
    ensures C.Fold(c, []) == c
  {
  }

  lemma RunsTwo(s: State, a: Step, b: Step)
    ensures Run(s, [a, b]) == Do(Do(s, a), b)
    ensures Contracted(s, [a, b]) <==> Contract(s, a) && Contract(Do(s, a), b)
  {
    hide Do, Contract;
    assert [a, b][1..] == [b] && [b][1..] == [];
    var t := Do(s, a);
    assert Run(t, [b]) == Run(Do(t, b), []) == Do(t, b);
    assert Contracted(t, [b]) <==> Contract(t, b);
    assert Run(s, [a, b]) == Run(t, [b]);
  }

  lemma RunsThree(s: State, a: Step, b: Step, c: Step)
    ensures Run(s, [a, b, c]) == Do(Do(Do(s, a), b), c)
    ensures Contracted(s, [a, b, c]) <==> Contract(s, a) && Contract(Do(s, a), b) && Contract(Do(Do(s, a), b), c)
  {
    hide Do, Contract;
    assert [a, b, c][1..] == [b, c];
    RunsTwo(Do(s, a), b, c);
  }

  lemma EarlySteps(settles: bool, led: L.LedgerState)
    ensures var s1 := Do(NewSession(settles, led), NewSink);
            var s2 := Do(s1, Connected(1, Seed(Some(IDLE), [], None)));
            var s3 := Do(s2, Emit(1, PromptJudge(EARLY), 0));
            && s2.live.out == [] && s2.sinkConnected && Hello(s2.live).judge == map[] && Hello(s2.live).resolved == {}
            && s3.live.out == [PromptJudge(EARLY)] && Hello(s3.live).judge == map[]
  {
    var s1 := Do(NewSession(settles, led), NewSink);
    EarlyConnect(s1);
    hide Connect, Greeted, L.AfterSettle;
    var s2 := Do(s1, Connected(1, Seed(Some(IDLE), [], None)));
    assert s2.live.ov == NEW_OVERLAY.(liveConnect := true) && s2.gen == 1 && !s2.sinkClosed && !s2.detached;
  }

  lemma EarlyConnect(s: State)
    requires s.live.ov == NEW_OVERLAY && !s.everConnected
    ensures var t := Connect(s.(sinkConnected := true), Seed(Some(IDLE), [], None));
            && t.live.out == [] && t.live.ov == NEW_OVERLAY.(liveConnect := true)
            && t.sinkConnected && t.gen == s.gen && t.sinkClosed == s.sinkClosed && t.detached == s.detached
  {
    hide L.AfterSettle, View;
  }

  /**
   A client that showed what an epoch's overlay was after its first `i` events, and then
   folded the rest, shows the overlay as it is now.
   */
  lemma OverlayFollows(l: Live, c: C.Client, untold: set<string>, i: nat)
    requires LiveInv(l) && i <= |l.out|
    requires Shows(c, C.Fold(l.start, l.out[..i]), untold)
    ensures Shows(C.Fold(c, l.out[i..]), View(l.ov, l.st.emitted), untold)
  {
    FreshSuffix(l.start, l.out, i);
    ShowsFold(c, C.Fold(l.start, l.out[..i]), untold, l.out[i..]);
    assert l.out == l.out[..i] + l.out[i..];
    C.FoldConcat(l.start, l.out[..i], l.out[i..]);
    ShowsBare(C.Fold(c, l.out[i..]), C.Fold(l.start, l.out), untold);
  }
}

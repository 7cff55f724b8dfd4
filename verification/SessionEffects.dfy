/**
 What each source event, settle read and connection makes of a session: the level it leaves,
 the turn edges it publishes and the prompts it opens.
 */
module SessionEffects {
  import opened Events
  import opened SessionModel
  import opened SessionRuns
  import C = Client
  import L = LedgerModel

  // ---- statuses ----

  predicate Ended(kind: StatusKind) { kind.Done? || kind.Error? || kind.Interrupted? }

  /** The turn edges an observed kind publishes, whatever its other fields. */
  function EdgesOf(st: StatusState, kind: StatusKind): seq<Event> {
    if kind.Busy? then (if st.pendingEnd then [TurnEnded(Done, "")] else []) + (if st.turn then [] else [TurnStarted(0)])
    else if Ended(kind) && (st.turn || st.pendingEnd) then [TurnEnded(kind, "")]
    else []
  }

  /** A level is published unless it is the one shown. */
  function LevelOf(was: Status, now: Status): seq<Event> { if now == was then [] else [StatusChanged(now)] }

  lemma EdgeOutcome(l: Live, kind: StatusKind)
    ensures var t := Edge(l, kind);
            && t.out == l.out + EdgesOf(l.st, kind)
            && t.st == l.st.(gen := l.st.gen + (if (kind.Busy? && l.st.pendingEnd) || (Ended(kind) && (l.st.turn || l.st.pendingEnd)) then 1 else 0),
                             turn := kind.Busy? || (!Ended(kind) && l.st.turn),
                             pendingEnd := !kind.Busy? && !Ended(kind) && l.st.pendingEnd)
            && t.led == (if Ended(kind) then L.AfterSettle(l.led) else l.led)
            && t == Live(t.st, l.ov, t.led, t.out, l.start, l.seededBusy)
  {
    hide L.AfterSettle;
    assert l.out + [] == l.out;
  }

  /**
   A status that is no idle edge becomes the level, with every field of it stated; while a prompt
   is open the session waits. Busy opens a turn and ends one whose settle is pending; done, error
   and interrupted end the turn with that outcome and settle the content.
   */
  lemma LevelObserved(s: State, ev: Status, now: int)
    requires !s.detached && !(ev.provisional && ev.kind.Done?)
    ensures var l, t := s.live, Handle(s, StatusChanged(ev), now).live;
            var level := Status(ev.kind, ev.provisional, if ev.notice.Absent? then Cleared else ev.notice,
                                if ev.kind.Limited? then ev.resetsAt else 0);
            var shown := if l.ov.prompts != [] then Status(Waiting, false, Cleared, 0) else level;
            && t.st.base == level && t.st.emitted == shown && t.ov == l.ov
            && t.out == l.out + EdgesOf(l.st, ev.kind) + LevelOf(l.st.emitted, shown)
            && t.st.turn == (ev.kind.Busy? || (!Ended(ev.kind) && l.st.turn))
            && t.st.pendingEnd == (!ev.kind.Busy? && !Ended(ev.kind) && l.st.pendingEnd)
            && t.led == (if Ended(ev.kind) then L.AfterSettle(l.led) else l.led)
            && (EdgesOf(l.st, ev.kind) != [] && (Ended(ev.kind) || l.st.pendingEnd) ==> t.st.gen > l.st.gen)
            && Handle(s, StatusChanged(ev), now) == s.(live := t)
  {
    EdgeOutcome(s.live, ev.kind);
    hide Edge, L.AfterSettle;
    assert Edge(s.live, ev.kind).out + [] == Edge(s.live, ev.kind).out;
  }

  /** That level is what a client that folds the epoch shows. */
  lemma LevelShownToClients(s: State, ev: Status, now: int)
    requires Inv(s) && s.everConnected && !s.detached && !(ev.provisional && ev.kind.Done?)
    ensures var t := Handle(s, StatusChanged(ev), now).live;
            C.Fold(t.start, t.out).status
            == if s.live.ov.prompts != [] then Status(Waiting, false, Cleared, 0)
               else Status(ev.kind, ev.provisional, if ev.notice.Absent? then Cleared else ev.notice,
                           if ev.kind.Limited? then ev.resetsAt else 0)
  {
    LevelObserved(s, ev, now);
    HandleKeeps(s, StatusChanged(ev), now);
    ShownByClients(Handle(s, StatusChanged(ev), now).live);
    hide Handle, Inv;
  }

  lemma ShownByClients(l: Live)
    requires Traced(l)
    ensures C.Fold(l.start, l.out).status == l.st.emitted
  {
    assert Bare(C.Fold(l.start, l.out)).status == View(l.ov, l.st.emitted).status;
  }

  /**
   An idle edge leaves a provisional done at once and a turn pending its end, and asks for a
   settle read of its generation; where none can be read the turn ends as done.
   */
  lemma IdleObserved(s: State, ev: Status, now: int)
    requires !s.detached && ev.provisional && ev.kind.Done?
    ensures var l, t := s.live, Handle(s, StatusChanged(ev), now).live;
            var level := Status(Done, true, Cleared, 0);
            var shown := if l.ov.prompts != [] then Status(Waiting, false, Cleared, 0) else level;
            var ending, asks := l.st.turn || l.st.pendingEnd, s.settles && (s.settlement.reading || !s.stopping);
            && t.st == StatusState(level, shown, false, ending && asks, l.st.gen + 1) && t.ov == l.ov
            && t.out == l.out + LevelOf(l.st.emitted, shown) + (if ending && !asks then [TurnEnded(Done, "")] else [])
            && t.led == L.AfterSettle(l.led)
            && (asks ==> Handle(s, StatusChanged(ev), now).settlement == Settlement(true, Some(Request(l.st.gen + 1, s.gen))))
            && Handle(s, StatusChanged(ev), now).readers
               == s.readers + (if asks && !s.settlement.reading then [Request(l.st.gen + 1, s.gen)] else [])
  {
    hide L.AfterSettle, IdleLive, SettleLive, ScheduleSettle;
    var idle := s.(live := IdleLive(s.live));
    IdleOutcome(s.live);
    ScheduleOutcome(idle, idle.live.st.gen);
    SettleOutcome(idle.live, None);
    assert idle.live.out + [] == idle.live.out;
  }

  lemma EmitOutcome(l: Live)
    ensures var t, shown := EmitStatus(l), if l.ov.prompts != [] then Status(Waiting, false, Cleared, 0) else l.st.base;
            t == l.(st := l.st.(emitted := shown), out := l.out + LevelOf(l.st.emitted, shown))
  {
    assert l.out + [] == l.out;
  }

  lemma IdleOutcome(l: Live)
    ensures var t, level := IdleLive(l), Status(Done, true, Cleared, 0);
            var shown := if l.ov.prompts != [] then Status(Waiting, false, Cleared, 0) else level;
            && t.st == StatusState(level, shown, false, l.st.turn || l.st.pendingEnd, l.st.gen + 1) && t.ov == l.ov
            && t.out == l.out + LevelOf(l.st.emitted, shown) && t.led == L.AfterSettle(l.led)
  {
    hide EmitStatus, L.AfterSettle, LevelOf;
    EmitOutcome(SettleLedger(l.(st := l.st.(gen := l.st.gen + 1, turn := false, pendingEnd := l.st.pendingEnd || l.st.turn, base := IDLE))));
  }

  lemma ScheduleOutcome(s: State, gen: nat)
    requires !s.detached && gen == s.live.st.gen
    ensures var t, asks := ScheduleSettle(s, gen), s.settles && (s.settlement.reading || !s.stopping);
            && t.live == (if asks then s.live else SettleLive(s.live, None))
            && (asks ==> t.settlement == Settlement(true, Some(Request(gen, s.gen))))
            && t.readers == s.readers + (if asks && !s.settlement.reading then [Request(gen, s.gen)] else [])
  {
    hide SettleLive;
    assert s.readers + [] == s.readers;
  }

  /** The outcome and, where the source knows it, the level of a settled read. */
  predicate Known(lc: Option<Lifecycle>) { lc.Some? && (Ended(lc.value.kind) || lc.value.kind.Waiting?) }

  /**
   The reader of the newest edge: a pending turn ends with the kind it read, done when it knows
   none or waits, and a provisional level becomes the kind it read.
   */
  lemma SettleObserved(s: State, i: nat, lc: Option<Lifecycle>)
    requires i < |s.readers| && s.settlement.pending.Some? && !s.detached && !s.stopping
    requires s.readers[i] == Request(s.live.st.gen, s.gen)
    ensures var l, t := s.live, FinishSettlement(s, i, lc).live;
            var lifts := Known(lc) && l.st.base.provisional;
            var level := if lifts then Status(lc.value.kind, false, Cleared, 0) else l.st.base;
            var shown := if !lifts then l.st.emitted else if l.ov.prompts != [] then Status(Waiting, false, Cleared, 0) else level;
            var outcome := if lc.Some? && (lc.value.kind.Error? || lc.value.kind.Interrupted?) then lc.value.kind else Done;
            && t.st == l.st.(base := level, emitted := shown, pendingEnd := false) && t.ov == l.ov
            && t.out == l.out + (if l.st.pendingEnd then [TurnEnded(outcome, if lc.Some? then lc.value.latest else "")] else [])
                        + LevelOf(l.st.emitted, shown)
            && t.led == (if Known(lc) && !lc.value.kind.Waiting? then L.AfterSettle(l.led) else l.led)
            && FinishSettlement(s, i, lc).settlement == Settlement(false, None)
            && FinishSettlement(s, i, lc).readers == s.readers[..i] + s.readers[i + 1..]
  {
    hide SettleLive, L.AfterSettle, Known;
    SettleOutcome(s.live, lc);
    Finished(s, i, lc);
  }

  lemma Finished(s: State, i: nat, lc: Option<Lifecycle>)
    requires i < |s.readers| && s.settlement.pending.Some? && !s.detached && !s.stopping
    requires s.readers[i] == Request(s.live.st.gen, s.gen)
    ensures FinishSettlement(s, i, lc)
         == s.(settlement := Settlement(false, None), readers := s.readers[..i] + s.readers[i + 1..], live := SettleLive(s.live, lc))
  {
    hide SettleLive;
  }

  lemma SettleOutcome(l: Live, lc: Option<Lifecycle>)
    ensures var t := SettleLive(l, lc);
            var lifts := Known(lc) && l.st.base.provisional;
            var level := if lifts then Status(lc.value.kind, false, Cleared, 0) else l.st.base;
            var shown := if !lifts then l.st.emitted else if l.ov.prompts != [] then Status(Waiting, false, Cleared, 0) else level;
            var outcome := if lc.Some? && (lc.value.kind.Error? || lc.value.kind.Interrupted?) then lc.value.kind else Done;
            && t.st == l.st.(base := level, emitted := shown, pendingEnd := false) && t.ov == l.ov
            && t.out == l.out + (if l.st.pendingEnd then [TurnEnded(outcome, if lc.Some? then lc.value.latest else "")] else [])
                        + LevelOf(l.st.emitted, shown)
            && t.led == (if Known(lc) && !lc.value.kind.Waiting? then L.AfterSettle(l.led) else l.led)
  {
    hide L.AfterSettle, EmitStatus, LevelOf;
    var (outcome, level) := SettledOutcome(lc);
    var latest := if lc.Some? then lc.value.latest else "";
    EndOutcome(l, outcome, latest, l.st.gen);
    var l1 := EndPendingTurn(l, outcome, latest, l.st.gen);
    var l2 := if level.Some? && level.value != Waiting then SettleLedger(l1) else l1;
    hide EndPendingTurn;
    if level.Some? && l.st.base.provisional {
      EmitOutcome(l2.(st := l2.st.(base := Status(level.value, false, Cleared, 0))));
    } else {
      SameLevel(l.st.emitted);
      assert l1.out + [] == l1.out;
    }
  }

  lemma SameLevel(now: Status)
    ensures LevelOf(now, now) == []
  {
  }

  lemma EndOutcome(l: Live, outcome: StatusKind, latest: string, gen: nat)
    ensures var t := EndPendingTurn(l, outcome, latest, gen);
            && t.st == l.st.(pendingEnd := false, gen := if l.st.pendingEnd then gen else l.st.gen)
            && t.out == l.out + (if l.st.pendingEnd then [TurnEnded(outcome, latest)] else [])
            && t == l.(st := t.st, out := t.out)
  {
    assert l.out + [] == l.out;
  }

  // ---- prompts and the rest ----

  function Ids(ps: seq<Prompt>): seq<string> { seq(|ps|, i requires 0 <= i < |ps| => ps[i].id) }

  /** Every prompt but one, in order. */
  ghost predicate WithoutPrompt(ps: seq<Prompt>, more: seq<Prompt>, id: string) {
    if exists i :: 0 <= i < |ps| && ps[i].id == id
    then exists i :: 0 <= i < |ps| && ps[i].id == id && more == ps[..i] + ps[i + 1..]
    else more == ps
  }

  /** A prompt put among the others: in the place of the one it repeats, or last. */
  ghost predicate WithPrompt(ps: seq<Prompt>, more: seq<Prompt>, p: Prompt) {
    if exists i :: 0 <= i < |ps| && ps[i].id == p.id
    then exists i :: 0 <= i < |ps| && ps[i].id == p.id && more == ps[i := p]
    else more == ps + [p]
  }

  lemma PutIs(ps: seq<Prompt>, p: Prompt)
    ensures WithPrompt(ps, PutPrompt(ps, p), p)
  {
    var i := FirstIndex(ps, p.id);
    PutAt(ps, p, i);
    hide PutPrompt;
  }

  lemma CutIs(ps: seq<Prompt>, id: string)
    ensures WithoutPrompt(ps, CutPrompt(ps, id), id)
  {
    var i := FirstIndex(ps, id);
    CutAt(ps, id, i);
    hide CutPrompt;
  }

  lemma {:induction false} FirstIndex(ps: seq<Prompt>, id: string) returns (i: nat)
    ensures i <= |ps| && (forall j :: 0 <= j < i ==> ps[j].id != id) && (i < |ps| ==> ps[i].id == id)
  {
    if ps == [] || ps[0].id == id {
      i := 0;
    } else {
      var k := FirstIndex(ps[1..], id);
      i := k + 1;
      assert forall j :: 0 < j < i ==> ps[j] == ps[1..][j - 1];
    }
  }

  /**
   A prompt that is asked opens, unless this epoch resolved it, and the session waits; one that is
   resolved closes with its judge and never opens again, and the level is the one beneath when
   it was the last. Both are published before the level.
   */
  lemma PromptObserved(s: State, p: Prompt, now: int)
    requires !s.detached
    ensures var l, t, u := s.live, Handle(s, PromptAsked(p), now).live, Handle(s, PromptResolved(p.id), now).live;
            && (p.id in l.ov.resolved ==> t == l && u == l)
            && (p.id !in l.ov.resolved ==>
                  var waiting := Status(Waiting, false, Cleared, 0);
                  && t.ov == l.ov.(prompts := t.ov.prompts) && WithPrompt(l.ov.prompts, t.ov.prompts, p)
                  && t.out == l.out + [PromptAsked(p)] + LevelOf(l.st.emitted, waiting)
                  && t.st == l.st.(emitted := waiting) && t.led == l.led
                  && u.ov == l.ov.(prompts := u.ov.prompts, resolved := l.ov.resolved + {p.id}, judge := l.ov.judge - {p.id})
                  && WithoutPrompt(l.ov.prompts, u.ov.prompts, p.id)
                  && var shown := if u.ov.prompts != [] then waiting else l.st.base;
                     && u.out == l.out + [PromptResolved(p.id)] + LevelOf(l.st.emitted, shown)
                     && u.st == l.st.(emitted := shown) && u.led == l.led)
  {
    PutIs(s.live.ov.prompts, p);
    CutIs(s.live.ov.prompts, p.id);
    PutSome(s.live.ov.prompts, p);
    hide PutPrompt, CutPrompt, WithPrompt, WithoutPrompt;
    var asked, closed := s.live.out + [PromptAsked(p)], s.live.out + [PromptResolved(p.id)];
    assert asked + [] == asked && closed + [] == closed;
  }

  lemma PutSome(ps: seq<Prompt>, p: Prompt)
    ensures PutPrompt(ps, p) != []
  {
  }

  /**
   Any other event is published once and changes only its own part of the state; a judge of a
   resolved prompt, a background that is shown already and a stream control are not published.
   */
  lemma EventObserved(s: State, ev: Event, now: int)
    requires !s.detached && !ev.StatusChanged? && !ev.PromptAsked? && !ev.PromptResolved?
    ensures var l, t := s.live, Handle(s, ev, now).live;
            var silent := ev.StreamControl? || (ev.PromptJudge? && ev.judge.promptId in l.ov.resolved)
                          || (ev.BackgroundChanged? && ev.background == l.ov.background);
            && t.out == (if silent then l.out else l.out + [ev]) && t.st == l.st
            && t.ov.prompts == l.ov.prompts && t.ov.resolved == l.ov.resolved && t.ov.liveConnect == l.ov.liveConnect
            && t.ov.judge == (if ev.PromptJudge? && !silent then l.ov.judge[ev.judge.promptId := ev.judge] else l.ov.judge)
            && t.ov.background == (if ev.BackgroundChanged? then ev.background else l.ov.background)
            && t.ov.queue == (if ev.QueueChanged? then Some(ev.queue) else l.ov.queue)
            && (ev.PartDelta? || ev.PartUpserted? || ev.MessageUpserted? || ev.MessageRemoved? || ev.PartRemoved? || ev.HistoryRewritten? ==>
                  t.led == L.AfterEvent(l.led, ev, now))
            && Handle(s, ev, now) == s.(live := t)
  {
    hide L.AfterEvent;
  }

  /** A detached session, and a sink that is closed or not the newest, change nothing. */
  lemma LateEventsIgnored(s: State, sink: nat, ev: Event, seed: Seed, now: int)
    requires s.detached || s.sinkClosed || sink != s.gen
    ensures Do(s, Emit(sink, ev, now)) == s && Do(s, Connected(sink, seed)) == s
    ensures s.detached ==> Do(s, HubPublish(ev, now)) == s
  {
  }

  /** The hub publishes to a session that was ever connected as its sink would, even a closed one, and to no other. */
  lemma HubPublishes(s: State, ev: Event, now: int)
    ensures !s.everConnected ==> Do(s, HubPublish(ev, now)) == s
    ensures s.everConnected && !s.sinkClosed ==> Do(s, HubPublish(ev, now)) == Do(s, Emit(s.gen, ev, now))
    ensures s.everConnected ==> Do(s, HubPublish(ev, now)) == Handle(s, ev, now)
  {
    hide HandleLive, ScheduleSettle;
  }

  /**
   The end of a watch closes the sink, and the next starts a new generation: what the old one still
   sends changes nothing. A session that was connected shows from then on that it is not live.
   */
  lemma WatchEndCloses(s: State, ev: Event, seed: Seed, now: int)
    ensures var t := Do(s, WatchEnded);
            && t.sinkClosed && t.gen == s.gen && Do(t, Emit(s.gen, ev, now)) == t && Do(t, Connected(s.gen, seed)) == t
            && (s.everConnected && !s.detached && !s.stopping ==> !t.connected && !t.live.ov.liveConnect)
            && t.live == s.live.(ov := s.live.ov.(liveConnect := t.live.ov.liveConnect))
            && var u := Do(t, NewSink);
               && u == t.(gen := s.gen + 1, sinkConnected := false, sinkClosed := false)
               && Do(u, Emit(s.gen, ev, now)) == u && Do(u, Connected(s.gen, seed)) == u
  {
    var t := Do(s, WatchEnded);
    var u := Do(t, NewSink);
    LateEventsIgnored(t, s.gen, ev, seed, now);
    LateEventsIgnored(u, s.gen, ev, seed, now);
    hide Handle, Connect;
  }

  /** A detached session settles its content and handles nothing any more: no event, no connection and no read. */
  lemma DetachEnds(s: State, at: int, step: Step)
    ensures var t := Do(s, Detach(at));
            && t.detached && t.live == s.live.(led := L.AfterSettle(s.live.led).(touched := at))
            && (!step.WatchEnded? && !step.Detach? ==> Do(t, step).live == t.live)
            && (step.SettleRead? ==> |Do(t, step).readers| <= |t.readers|)
  {
    hide HandleLive, SettleLive, Connect, L.AfterSettle;
  }

  /** Stopped workers start no read, and what a read still returns is void. */
  lemma StopVoids(s: State, i: nat, lc: Option<Lifecycle>, gen: nat)
    ensures var t := Do(s, Stop);
            && t == s.(stopping := true) && Do(t, SettleRead(i, lc)).live == t.live
            && |ScheduleSettle(t, gen).readers| <= |t.readers|
  {
    hide SettleLive;
  }

  /** What reads and the hub's budget do to the ledger leaves everything else as it was. */
  lemma LedgerOnly(s: State, op: LedgerOp)
    requires !s.detached
    ensures var l := s.live.led;
            Do(s, LedgerStep(op)) == s.(live := s.live.(led := match op
              case ReadBegins => L.AfterBegin(l)
              case ReadCommits(view, page) => L.AfterCommit(l, view, page)
              case ReadEnds(ticket, endedAt) => L.AfterEnd(l, ticket, endedAt)
              case Evicts(ms, ps) => l.(content := L.Less(l.content, ms, ps), settled := l.settled - ms)))
  {
  }

  // ---- connections ----

  /** The last prompt seeded under its id. */
  predicate LastSeeded(ps: seq<Prompt>, i: nat)
    requires i < |ps|
  {
    forall j :: i < j < |ps| ==> ps[j].id != ps[i].id
  }

  /** The ids seeded, in the order they first were. */
  function FirstSeeded(ps: seq<Prompt>): seq<string> {
    if ps == [] then []
    else
      var most, id := FirstSeeded(ps[..|ps| - 1]), ps[|ps| - 1].id;
      if id in most then most else most + [id]
  }

  /** The prompts open are those seeded, each as it was seeded last, in the order of their ids. */
  ghost predicate Seeded(open: seq<Prompt>, ps: seq<Prompt>) {
    && UniqueIds(open) && Ids(open) == FirstSeeded(ps)
    && (forall i :: 0 <= i < |ps| && LastSeeded(ps, i) ==> ps[i] in open)
    && forall p :: p in open ==> exists i :: 0 <= i < |ps| && LastSeeded(ps, i) && ps[i] == p
  }

  lemma {:induction false} AskedAll(ov: Overlay, ps: seq<Prompt>)
    requires ov.prompts == [] && ov.resolved == {}
    ensures AskAll(ov, ps) == ov.(prompts := AskAll(ov, ps).prompts) && Seeded(AskAll(ov, ps).prompts, ps)
  {
    if ps != [] {
      var most, p := ps[..|ps| - 1], ps[|ps| - 1];
      AskedAll(ov, most);
      var was := AskAll(ov, most).prompts;
      PutKeeps(was, p);
      var i := FirstIndex(was, p.id);
      PutAt(was, p, i);
      hide PutPrompt;
      SeededNext(was, AskAll(ov, ps).prompts, most, p, i);
      assert most + [p] == ps;
    }
  }

  lemma SeededNext(was: seq<Prompt>, open: seq<Prompt>, most: seq<Prompt>, p: Prompt, i: nat)
    requires Seeded(was, most) && UniqueIds(open) && i <= |was| && (forall j :: 0 <= j < i ==> was[j].id != p.id)
    requires if i < |was| then was[i].id == p.id && open == was[i := p] else open == was + [p]
    ensures Seeded(open, most + [p])
  {
    SeededIds(was, open, most, p, i);
    SeededIn(was, open, most, p, i);
    SeededFrom(was, open, most, p, i);
    hide UniqueIds, Ids, FirstSeeded, LastSeeded;
  }

  lemma SeededIds(was: seq<Prompt>, open: seq<Prompt>, most: seq<Prompt>, p: Prompt, i: nat)
    requires Ids(was) == FirstSeeded(most) && i <= |was| && (forall j :: 0 <= j < i ==> was[j].id != p.id)
    requires if i < |was| then was[i].id == p.id && open == was[i := p] else open == was + [p]
    ensures Ids(open) == FirstSeeded(most + [p])
  {
    assert (most + [p])[..|most|] == most;
    if i < |was| {
      assert Ids(was)[i] == p.id;
      assert Ids(open) == Ids(was);
    } else {
      assert p.id !in Ids(was);
      assert Ids(open) == Ids(was) + [p.id];
    }
  }

  lemma SeededIn(was: seq<Prompt>, open: seq<Prompt>, most: seq<Prompt>, p: Prompt, i: nat)
    requires Seeded(was, most) && i <= |was| && (forall j :: 0 <= j < i ==> was[j].id != p.id)
    requires if i < |was| then was[i].id == p.id && open == was[i := p] else open == was + [p]
    ensures var ps := most + [p]; forall k :: 0 <= k < |ps| && LastSeeded(ps, k) ==> ps[k] in open
  {
    var ps := most + [p];
    forall k | 0 <= k < |ps| && LastSeeded(ps, k)
      ensures ps[k] in open
    {
      if k == |most| {
        assert open[i] == p;
      } else {
        assert ps[|most|].id != ps[k].id;
        assert LastSeeded(most, k) by {
          assert forall j :: k < j < |most| ==> ps[j] == most[j];
        }
        var n :| 0 <= n < |was| && was[n] == most[k];
        assert open[n] == was[n];
      }
    }
  }

  lemma SeededFrom(was: seq<Prompt>, open: seq<Prompt>, most: seq<Prompt>, p: Prompt, i: nat)
    requires Seeded(was, most) && i <= |was| && (forall j :: 0 <= j < i ==> was[j].id != p.id)
    requires if i < |was| then was[i].id == p.id && open == was[i := p] else open == was + [p]
    ensures var ps := most + [p]; forall q :: q in open ==> exists k :: 0 <= k < |ps| && LastSeeded(ps, k) && ps[k] == q
  {
    var ps := most + [p];
    assert LastSeeded(ps, |most|) && ps[|most|] == p;
    forall q | q in open && q != p
      ensures exists k :: 0 <= k < |ps| && LastSeeded(ps, k) && ps[k] == q
    {
      assert q in was && q.id != p.id by {
        var n :| 0 <= n < |open| && open[n] == q;
        assert n < |was| && was[n] == q;
        if n > i {
          assert was[i].id != was[n].id;
        }
      }
      var k :| 0 <= k < |most| && LastSeeded(most, k) && most[k] == q;
      assert ps[k] == q && LastSeeded(ps, k) by {
        assert forall j :: k < j < |most| ==> ps[j] == most[j];
      }
    }
  }

  /** Before the first connection nothing is shown. */
  lemma {:induction false} Unconnected(s: State, steps: seq<Step>)
    requires Inv(s) && Contracted(s, steps) && (!s.everConnected ==> s.live.ov == NEW_OVERLAY)
    ensures var t := Run(s, steps); !t.everConnected ==> t.live.ov == NEW_OVERLAY
    decreases |steps|
  {
    if steps != [] {
      DoKeeps(s, steps[0]);
      UnconnectedStep(s, steps[0]);
      hide Inv, Contract, Do;
      Unconnected(Do(s, steps[0]), steps[1..]);
    }
  }

  lemma UnconnectedStep(s: State, step: Step)
    requires ReadsInv(s) && Contract(s, step) && (!s.everConnected ==> s.live.ov == NEW_OVERLAY)
    ensures var t := Do(s, step); !t.everConnected ==> t.live.ov == NEW_OVERLAY
  {
    hide Handle, SettleLive, Connect, Ledgered;
    match step
    case Connected(sink, seed) => ConnectedEver(s.(sinkConnected := true), seed);
    case Emit(sink, ev, now) => HandledEver(s, ev, now);
    case HubPublish(ev, at) => HandledEver(s, ev, at);
    case SettleRead(i, lc) =>
    case _ =>
  }

  lemma ConnectedEver(s: State, seed: Seed)
    ensures Connect(s, seed).everConnected
  {
    hide AskAll, L.AfterSettle, SettleLive;
  }

  lemma HandledEver(s: State, ev: Event, now: int)
    ensures Handle(s, ev, now).everConnected == s.everConnected
  {
    hide HandleLive, SettleLive;
  }

  /**
   A connection opens an epoch on its seed, in every run: the prompts open are the seeded ones and
   nothing is judged or resolved; the background is the seed's or the one kept, and the queue is
   kept; the level is the seeded status with every field stated, or a provisional done when there
   is none; a turn is open exactly for a seeded busy; and a client greeted sees all of it.
   */
  lemma ConnectionOpens(settles: bool, led: L.LedgerState, steps: seq<Step>, sink: nat, seed: Seed)
    requires Contracted(NewSession(settles, led), steps)
    requires var s := Run(NewSession(settles, led), steps); !s.sinkClosed && sink == s.gen && !s.detached && !s.sinkConnected
    ensures var s := Run(NewSession(settles, led), steps);
            Opened(s, Do(s, Connected(sink, seed)), seed)
  {
    var s := Run(NewSession(settles, led), steps);
    NewSessionValid(settles, led);
    RunKeeps(NewSession(settles, led), steps);
    Unconnected(NewSession(settles, led), steps);
    hide Run, Inv;
    ConnectOpens(s.(sinkConnected := true), seed);
  }

  ghost predicate Opened(s: State, t: State, seed: Seed) {
    var ov := t.live.ov;
    var level := if seed.status.None? then Status(Done, true, Cleared, 0)
                 else
                   var ev := seed.status.value;
                   Status(ev.kind, ev.provisional, if ev.notice.Absent? then Cleared else ev.notice,
                          if ev.kind.Limited? then ev.resetsAt else 0);
    && t.connected && t.everConnected && t.sinkConnected
    && Seeded(ov.prompts, seed.prompts) && ov.judge == map[] && ov.resolved == {} && ov.liveConnect
    && ov.background == (if seed.background.Some? then seed.background.value
                         else if s.everConnected then s.live.ov.background else Background(0, []))
    && ov.queue == (if s.everConnected then s.live.ov.queue else None)
    && t.live.st.base == level
    && t.live.st.emitted == (if seed.prompts != [] then Status(Waiting, false, Cleared, 0) else level)
    && t.live.st.turn == (seed.status.Some? && seed.status.value.kind.Busy?) && !t.live.st.pendingEnd
    && t.live.st.gen > s.live.st.gen
    && t.live.out == [] && t.live.seededBusy == t.live.st.turn
    && t.live.led == (if seed.status.Some? && !seed.status.value.kind.Busy? then L.AfterSettle(s.live.led) else s.live.led)
    && Hello(t.live).status == t.live.st.emitted && Hello(t.live).prompts == PromptMap(ov.prompts)
    && Hello(t.live).background == ov.background && Hello(t.live).queue == ov.queue
  }

  lemma ConnectOpens(s: State, seed: Seed)
    requires s.sinkConnected && (!s.everConnected ==> s.live.ov == NEW_OVERLAY)
    ensures Opened(s, Connect(s, seed), seed)
  {
    hide AskAll, Seeded, L.AfterSettle, PromptMap, Connect, Arrive, OpenEpoch, SeedStatus;
    ConnectIs(s, seed);
    Arrived(s, seed);
    EpochIs(Arrive(s, seed).live);
  }

  lemma ConnectIs(s: State, seed: Seed)
    ensures var t := Connect(s, seed);
            && t.live == OpenEpoch(Arrive(s, seed).live)
            && t.connected && t.everConnected && t.sinkConnected == s.sinkConnected
  {
    hide AskAll, L.AfterSettle, ScheduleSettle, PromptMap, ConnectOverlay, OpenEpoch;
    var a := Arrive(s, seed);
    ScheduleQuiet(a, a.live.st.gen, a.live);
    SameConnected(a, a.live.st.gen);
  }

  /** What the state takes from the seed before its epoch opens. */
  lemma Arrived(s: State, seed: Seed)
    requires !s.everConnected ==> s.live.ov == NEW_OVERLAY
    ensures var l := Arrive(s, seed).live;
            && Seeded(l.ov.prompts, seed.prompts) && (l.ov.prompts != [] <==> seed.prompts != [])
            && l.ov.judge == map[] && l.ov.resolved == {} && l.ov.liveConnect
            && l.ov.background == (if seed.background.Some? then seed.background.value
                                   else if s.everConnected then s.live.ov.background else Background(0, []))
            && l.ov.queue == (if s.everConnected then s.live.ov.queue else None)
            && l.st.base == (if seed.status.None? then Status(Done, true, Cleared, 0)
                             else
                               var ev := seed.status.value;
                               Status(ev.kind, ev.provisional, if ev.notice.Absent? then Cleared else ev.notice,
                                      if ev.kind.Limited? then ev.resetsAt else 0))
            && l.st.turn == (seed.status.Some? && seed.status.value.kind.Busy?) && !l.st.pendingEnd
            && l.st.gen > s.live.st.gen
            && l.led == (if seed.status.Some? && !seed.status.value.kind.Busy? then L.AfterSettle(s.live.led) else s.live.led)
  {
    hide AskAll, Seeded, L.AfterSettle;
    var base := if s.everConnected then NEW_OVERLAY.(background := s.live.ov.background, queue := s.live.ov.queue) else s.live.ov;
    AskedAll(base.(liveConnect := true), seed.prompts);
    SeededSome(AskAll(base.(liveConnect := true), seed.prompts).prompts, seed.prompts);
  }

  lemma EpochIs(l: Live)
    ensures var t := OpenEpoch(l);
            && t.ov == l.ov && t.led == l.led && t.out == [] && t.seededBusy == l.st.turn
            && t.st == l.st.(emitted := if l.ov.prompts != [] then Status(Waiting, false, Cleared, 0) else l.st.base)
            && Hello(t).status == t.st.emitted && Hello(t).prompts == PromptMap(l.ov.prompts)
            && Hello(t).background == l.ov.background && Hello(t).queue == l.ov.queue
  {
    hide PromptMap, Greeted;
  }

  lemma SeededSome(open: seq<Prompt>, ps: seq<Prompt>)
    requires Seeded(open, ps)
    ensures open != [] <==> ps != []
  {
    if ps != [] {
      assert LastSeeded(ps, |ps| - 1);
    }
  }

  lemma SameConnected(s: State, gen: nat)
    ensures var t := ScheduleSettle(s, gen);
            t.connected == s.connected && t.everConnected == s.everConnected && t.sinkConnected == s.sinkConnected
  {
    hide SettleLive;
  }
}

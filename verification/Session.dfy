/**
 The session object: its fields, its replay log and its subscribers, updated in place
 one locked step at a time. Each method is tied to the state function it implements,
 and `Served` is what every step keeps for the subscribers.
 */
module Session {
  import opened Events
  import opened ReplayLog
  import opened SessionModel
  import opened Subscribers
  import CR = CompactedReplay
  import C = Client
  import L = LedgerModel
  import SR = SessionRuns

  class Hub {
    var totalBytes: int
    const maxTotal: int

    constructor (maxTotal: int)
      ensures totalBytes == 0 && this.maxTotal == maxTotal
    {
      totalBytes, this.maxTotal := 0, maxTotal;
    }
  }

  // ---- the overlay, in place ----

  method Find(ps: seq<Prompt>, id: string) returns (i: nat)
    ensures i <= |ps| && (forall j :: 0 <= j < i ==> ps[j].id != id) && (i < |ps| ==> ps[i].id == id)
  {
    i := 0;
    while i < |ps| && ps[i].id != id
      invariant i <= |ps| && forall j :: 0 <= j < i ==> ps[j].id != id
    {
      i := i + 1;
    }
  }

  /** Opens a prompt; it reports false for one already resolved in this epoch. */
  method Ask(ov: Overlay, p: Prompt) returns (r: Overlay, ok: bool)
    ensures r == AskOverlay(ov, p) && ok == (p.id !in ov.resolved)
  {
    if p.id in ov.resolved {
      return ov, false;
    }
    var i := Find(ov.prompts, p.id);
    SR.PutAt(ov.prompts, p, i);
    r, ok := ov.(prompts := if i < |ov.prompts| then ov.prompts[i := p] else ov.prompts + [p]), true;
  }

  /** Closes a prompt; it reports false for a repeat resolution. */
  method Resolve(ov: Overlay, id: string) returns (r: Overlay, ok: bool)
    ensures r == ResolveOverlay(ov, id) && ok == (id !in ov.resolved)
  {
    if id in ov.resolved {
      return ov, false;
    }
    var i := Find(ov.prompts, id);
    SR.CutAt(ov.prompts, id, i);
    var prompts := if i < |ov.prompts| then ov.prompts[..i] + ov.prompts[i + 1..] else ov.prompts;
    r, ok := ov.(resolved := ov.resolved + {id}, judge := ov.judge - {id}, prompts := prompts), true;
  }

  /** The SSE frame of an event, or none when it cannot be encoded. */
  method Encode(ev: Event) returns (frame: Frame)
    ensures frame.Frame? ==> frame.ev == ev
  {
    var size: nat := *;
    if * {
      frame := NoFrame;
    } else {
      frame := Frame(ev, size);
    }
  }

  // ---- what an event does to the state, by kind ----

  lemma SeededOverlay(ov: Overlay, reconnect: bool, seed: Seed)
    ensures var base := if reconnect then NEW_OVERLAY.(background := ov.background, queue := ov.queue) else ov;
            var asked := AskAll(base.(liveConnect := true), seed.prompts);
            ConnectOverlay(ov, reconnect, seed)
            == if seed.background.Some? then asked.(background := seed.background.value) else asked
  {
  }

  lemma HandleIdle(s: State, now: int)
    ensures Handle(s, StatusChanged(IDLE), now) ==
              if s.detached then s else ScheduleSettle(s.(live := IdleLive(s.live)), IdleLive(s.live).st.gen)
  {
  }

  lemma HandleIdleAs(s: State, ev: Status, now: int)
    requires IdleEdge(StatusChanged(ev))
    ensures Handle(s, StatusChanged(ev), now) == Handle(s, StatusChanged(IDLE), now)
  {
  }

  lemma HandleLevel(s: State, ev: Status, now: int)
    requires !IdleEdge(StatusChanged(ev))
    ensures Handle(s, StatusChanged(ev), now) == if s.detached then s else s.(live := LevelLive(s.live, ev))
  {
  }

  lemma DetachedIgnores(s: State, ev: Event, now: int)
    requires s.detached
    ensures Handle(s, ev, now) == s
  {
  }

  lemma HandleOther(s: State, ev: Event, now: int)
    requires !ev.StatusChanged?
    ensures Handle(s, ev, now) == if s.detached then s else s.(live := HandleLive(s.live, ev, now))
  {
  }

  lemma FannedIs(before: map<nat, Subscription>, gone: map<nat, Ending>, m: FrameMsg, subs: map<nat, Subscription>, ended: map<nat, Ending>)
    requires forall id :: id in subs <==> id in before && !Full(before[id])
    requires forall id :: id in subs ==> subs[id] == Sent(before[id], m)
    requires forall id :: id in ended <==> id in gone || (id in before && Full(before[id]))
    requires forall id :: id in ended ==>
               ended[id] == if id in before && Full(before[id]) then Ending(SlowConsumer, before[id]) else gone[id]
    ensures subs == Fanned(before, m) && ended == gone + Slow(before)
  {
    hide Sent, Full;
  }

  /** A subscriber has room below 256 frames not taken. */
  lemma FannedRoom(subs: map<nat, Subscription>, m: FrameMsg)
    ensures forall id :: id in Fanned(subs, m) <==> id in subs && |subs[id].buffer| < 256
    ensures forall id :: id in Fanned(subs, m) ==>
              Fanned(subs, m)[id] == subs[id].(pushed := subs[id].pushed + [m], buffer := subs[id].buffer + [m])
    ensures forall id :: id in subs && id !in Fanned(subs, m) ==> id in Slow(subs) && Slow(subs)[id] == Ending(SlowConsumer, subs[id])
  {
  }

  lemma FannedEpoch(subs: map<nat, Subscription>, m: FrameMsg, epoch: nat)
    requires forall id :: id in subs ==> subs[id].epoch == epoch
    ensures forall id :: id in Fanned(subs, m) ==> Fanned(subs, m)[id].epoch == epoch
  {
  }

  // ---- the session ----

  class Session {
    const hub: Hub
    var log: SessionLog
    var subs: map<nat, Subscription>
    var ended: map<nat, Ending>
    var nextSub: nat
    var waiters: seq<Cursor>   // subscribers waiting for the first connection
    var st: StatusState
    var ov: Overlay
    var led: L.LedgerState      // the state of the key's ledger
    var settlement: Settlement
    var readers: seq<Request>
    var gen: nat
    var sinkConnected: bool
    var sinkClosed: bool
    var everConnected: bool
    var connected: bool
    var detached: bool
    var stopping: bool
    const settles: bool
    ghost var out: seq<Event>       // published in this epoch
    ghost var ops: seq<CR.Op>       // performed on this epoch's log
    ghost var attachedAt: map<nat, nat> // how many of them preceded each subscriber
    ghost var left: set<nat>        // closed by their consumers
    ghost var start: C.Client
    ghost var seededBusy: bool

    ghost function LiveView(): Live
      reads `st, `ov, `led, `out, `start, `seededBusy
    {
      Live(st, ov, led, out, start, seededBusy)
    }

    ghost function View(): State
      reads `st, `ov, `led, `out, `start, `seededBusy, `settlement, `readers, `gen, `sinkConnected, `sinkClosed,
            `everConnected, `connected, `detached, `stopping
    {
      State(LiveView(), settlement, readers, gen, sinkConnected, sinkClosed, everConnected, connected, detached,
            stopping, settles)
    }

    /** The bytes the hub counts for other sessions' logs. */
    ghost function Elsewhere(): int
      reads `log, log`bytes, hub`totalBytes
    {
      hub.totalBytes - log.bytes
    }

    ghost predicate Restarted(ids: set<nat>)
      reads `ended
    {
      forall id :: id in ids ==> id in ended && ended[id].reason == SourceRestarted
    }

    /** The log is the run of its operations. */
    ghost predicate LogRuns()
      reads `log, `ops, log
    {
      && log.Valid()
      && var l := CR.Run(log.maxBytes, log.maxEntries, ops);
      && log.last == l.last && log.floor == l.floor && log.entries == l.entries
    }

    /**
     Every subscriber is continuous over the operations of its epoch's log, and until the
     session is detached that log is the one it publishes to.
     */
    ghost predicate Served()
      reads `log, `subs, `ended, `left, `nextSub, `out, `ops, `attachedAt, `detached, log
    {
      && log.Valid()
      && (!detached ==> LogRuns() && forall id :: id in subs ==> subs[id].epoch == log.epoch)
      && AllContinuous(subs, attachedAt, log.maxBytes, log.maxEntries, ops)
      && Numbered(nextSub, subs, ended, left)
      && Sources(ops) == out
    }

    /** A number names one subscriber, alive or ended. */
    lemma ServedIds()
      requires Served()
      ensures forall id :: id in ended ==> id !in subs && id < nextSub
      ensures forall id :: id in subs ==> id < nextSub
      ensures Numbered(nextSub, subs, ended, left)
    {
    }

    lemma ServedNothing()
      requires Served()
      ensures ops == [] ==> out == []
    {
    }

    constructor (hub: Hub, epoch: nat, maxBytes: nat, maxEntries: nat, settles: bool, led: L.LedgerState)
      ensures Served() && View() == NewSession(settles, led) && this.hub == hub && fresh(log)
      ensures subs == map[] && waiters == []
    {
      this.hub, this.settles := hub, settles;
      log := new SessionLog(epoch, maxBytes, maxEntries);
      subs, ended, nextSub, waiters := map[], map[], 0, [];
      st, ov, this.led, settlement, readers := NewStatus(0), NEW_OVERLAY, led, Settlement(false, None), [];
      gen, sinkConnected, sinkClosed := 0, false, true;
      everConnected, connected, detached, stopping := false, false, false, false;
      out, ops, attachedAt, left, start, seededBusy := [], [], map[], {}, SessionModel.View(NEW_OVERLAY, IDLE), false;
    }

    method KillLocked(id: nat, reason: Reason)
      requires id in subs
      modifies `subs, `ended
      ensures subs == old(subs) - {id} && ended == old(ended)[id := Ending(reason, old(subs)[id])]
    {
      ended := ended[id := Ending(reason, subs[id])];
      subs := subs - {id};
    }

    /** A subscriber whose buffer is full is reset rather than blocking or skipping. */
    method FanoutLocked(m: FrameMsg)
      modifies `subs, `ended
      ensures subs == Fanned(old(subs), m) && ended == old(ended) + Slow(old(subs))
    {
      hide Sent, Full, Fanned, Slow;
      ghost var before, gone := subs, ended;
      var rest := subs.Keys;
      while rest != {}
        invariant rest <= before.Keys
        invariant forall id :: id in subs <==> id in before && (id in rest || !Full(before[id]))
        invariant forall id :: id in subs ==> subs[id] == if id in rest then before[id] else Sent(before[id], m)
        invariant forall id :: id in ended <==> id in gone || (id in before && id !in rest && Full(before[id]))
        invariant forall id :: id in ended ==>
                    ended[id] == if id in before && id !in rest && Full(before[id]) then Ending(SlowConsumer, before[id]) else gone[id]
      {
        var id :| id in rest;
        if !Full(subs[id]) {
          subs := subs[id := Sent(subs[id], m)];
        } else {
          KillLocked(id, SlowConsumer);
        }
        rest := rest - {id};
      }
      FannedIs(before, gone, m, subs, ended);
    }

    /** Adds a log size change to the hub's total and trims the log past the global cap. */
    method Account(delta: int) returns (ghost trims: seq<CR.Op>)
      requires log.Valid()
      modifies hub`totalBytes, log`entries, log`bytes, log`live, log`dropped, log`byKey, log`floor, `ops
      ensures log.Valid()
      ensures Elsewhere() == old(Elsewhere()) + delta
      ensures ops == old(ops) + trims
      ensures trims != [] <==> old(hub.totalBytes) + delta > hub.maxTotal
      ensures if trims == [] then log.entries == old(log.entries) && log.floor == old(log.floor)
              else
                var half: nat := old(log.bytes) / 2;
                && trims == [CR.Trim(half, log.maxEntries)] && log.bytes <= half
                && var n := Trimmed(old(log.entries), half, log.maxEntries);
                   log.entries == old(log.entries)[n..] && log.floor == FloorAfter(old(log.entries), n, old(log.floor))
    {
      hub.totalBytes := hub.totalBytes + delta;
      trims := [];
      if hub.totalBytes <= hub.maxTotal {
        assert ops + trims == ops;
        return;
      }
      var before := log.bytes;
      log.Trim(before / 2, log.maxEntries);
      trims := [CR.Trim(before / 2, log.maxEntries)];
      ops := ops + trims;
      hub.totalBytes := hub.totalBytes + log.bytes - before;
    }

    /** Logs an event under the next number, unless it cannot be encoded. */
    method LogLocked(ev: Event) returns (m: Option<FrameMsg>, ghost size: nat, ghost trims: seq<CR.Op>)
      requires LogRuns()
      modifies `ops, log, hub`totalBytes
      ensures LogRuns()
      ensures Elsewhere() == old(Elsewhere())
      ensures m.Some? ==> m.value == FrameMsg(old(log.last) + 1, ev, true)
      ensures ops == old(ops) + [CR.Publish(ev, size, m.Some?)] + trims
      ensures trims == [] || exists b: nat, n: nat :: trims == [CR.Trim(b, n)]
    {
      hide CR.Run, Trimmed, Repacked, FloorAfter, Indexed, Counted;
      var s := log.Next();
      var frame := Encode(ev);
      size, trims := Size(frame), [];
      ghost var op := CR.Publish(ev, size, frame.Frame?);
      CR.RunValid(log.maxBytes, log.maxEntries, ops);
      RunAppend(log.maxBytes, log.maxEntries, ops, op);
      ghost var before := ops + [op];
      ops := before;
      if frame.NoFrame? {
        m := None;
        assert ops + trims == ops;
        return;
      }
      var delta := log.Append(s, frame, Supersedes(ev), KeyOf(ev));
      m := Some(FrameMsg(s, ev, true));
      trims := Account(delta);
      if trims != [] {
        assert trims == [trims[0]];
        RunAppend(log.maxBytes, log.maxEntries, before, trims[0]);
      } else {
        assert before + trims == before;
      }
    }

    /** Logs an event and fans it out. */
    method PublishLocked(ev: Event)
      requires Served() && !detached
      modifies `out, `ops, `subs, `ended, log, hub`totalBytes
      ensures Served() && log == old(log) && out == old(out) + [ev]
      ensures Elsewhere() == old(Elsewhere())
      ensures || (subs == old(subs) && ended == old(ended))
              || (subs == Fanned(old(subs), FrameMsg(old(log.last) + 1, ev, true)) && ended == old(ended) + Slow(old(subs)))
    {
      hide CR.Run, Continuous, Numbered, Fanned, Slow;
      ghost var before, was, gone := ops, subs, ended;
      out := out + [ev];
      var m, size, trims := LogLocked(ev);
      if m.Some? {
        FanoutLocked(m.value);
        FannedNumbered(nextSub, was, gone, left, m.value);
        FannedEpoch(was, m.value, log.epoch);
      }
      PublishSources(before, ev, size, m.Some?, trims);
      PublishContinuous(was, attachedAt, log.maxBytes, log.maxEntries, before, ev, size, m.Some?, trims);
    }

    // ---- status and turns ----

    method EmitStatusLocked()
      requires Served() && !detached
      modifies `st, `out, `ops, `subs, `ended, log, hub`totalBytes
      ensures Served() && log == old(log)
      ensures LiveView() == EmitStatus(old(LiveView()))
      ensures Elsewhere() == old(Elsewhere())
    {
      hide Served;
      var e := if |ov.prompts| > 0 then WAITING else st.base;
      if e == st.emitted {
        return;
      }
      st := st.(emitted := e);
      PublishLocked(StatusChanged(e));
    }

    method StartTurnLocked()
      requires Served() && !detached
      modifies `st, `out, `ops, `subs, `ended, log, hub`totalBytes
      ensures Served() && log == old(log)
      ensures LiveView() == StartTurn(old(LiveView()))
      ensures Elsewhere() == old(Elsewhere())
    {
      hide Served;
      if st.pendingEnd {
        st := st.(pendingEnd := false, gen := st.gen + 1);
        PublishLocked(TurnEnded(Done, ""));
      }
      if !st.turn {
        st := st.(turn := true);
        PublishLocked(TurnStarted(0));
      }
    }

    method EndTurnLocked(outcome: StatusKind)
      requires Served() && !detached
      modifies `st, `out, `ops, `subs, `ended, log, hub`totalBytes
      ensures Served() && log == old(log)
      ensures LiveView() == EndTurn(old(LiveView()), outcome)
      ensures Elsewhere() == old(Elsewhere())
    {
      hide Served;
      if !st.turn && !st.pendingEnd {
        return;
      }
      st := st.(gen := st.gen + 1, turn := false, pendingEnd := false);
      PublishLocked(TurnEnded(outcome, ""));
    }

    method SettledLocked(settledGen: nat, lc: Option<Lifecycle>)
      requires Served()
      modifies `st, `led, `out, `ops, `subs, `ended, log, hub`totalBytes
      ensures Served() && log == old(log)
      ensures View() == Settled(old(View()), settledGen, lc)
      ensures lc.None? && !old(st.pendingEnd) ==> subs == old(subs) && ended == old(ended) && log.last == old(log.last)
      ensures Elsewhere() == old(Elsewhere())
    {
      hide Served, SettleLive;
      if detached || settledGen != st.gen {
        return;
      }
      SettleLiveLocked(lc);
    }

    method SettleLiveLocked(lc: Option<Lifecycle>)
      requires Served() && !detached
      modifies `st, `led, `out, `ops, `subs, `ended, log, hub`totalBytes
      ensures Served() && log == old(log)
      ensures LiveView() == SettleLive(old(LiveView()), lc)
      ensures lc.None? && !old(st.pendingEnd) ==> subs == old(subs) && ended == old(ended) && log.last == old(log.last)
      ensures Elsewhere() == old(Elsewhere())
    {
      hide Served, EmitStatus;
      var (outcome, level) := SettledOutcome(lc);
      if st.pendingEnd {
        st := st.(pendingEnd := false);
        PublishLocked(TurnEnded(outcome, if lc.Some? then lc.value.latest else ""));
      }
      if level.Some? && level.value != Waiting {
        led := L.AfterSettle(led);
      }
      if level.Some? && st.base.provisional {
        st := st.(base := Status(level.value, false, Cleared, 0));
        EmitStatusLocked();
      }
    }

    method ScheduleSettleLocked(settleGen: nat)
      requires Served()
      modifies `st, `led, `settlement, `readers, `out, `ops, `subs, `ended, log, hub`totalBytes
      ensures Served() && log == old(log)
      ensures View() == ScheduleSettle(old(View()), settleGen)
      ensures !old(st.pendingEnd) ==> subs == old(subs) && ended == old(ended) && log.last == old(log.last)
      ensures Elsewhere() == old(Elsewhere())
    {
      hide Served;
      if !settles {
        SettledLocked(settleGen, None);
        return;
      }
      if detached {
        return;
      }
      var request := Request(settleGen, gen);
      if settlement.reading {
        settlement := settlement.(pending := Some(request));
        return;
      }
      if stopping {
        settlement := Settlement(false, None);
        SettledLocked(settleGen, None);
      } else {
        settlement := Settlement(true, Some(request));
        readers := readers + [request];
      }
    }

    method IdleLocked(ghost now: int)
      requires Served() && !detached
      modifies `st, `led, `settlement, `readers, `out, `ops, `subs, `ended, log, hub`totalBytes
      ensures Served() && log == old(log)
      ensures View() == Handle(old(View()), StatusChanged(IDLE), now)
      ensures Elsewhere() == old(Elsewhere())
    {
      hide Served, ScheduleSettle, Handle, IdleLive;
      HandleIdle(View(), now);
      IdleLocked0();
      ScheduleSettleLocked(st.gen);
    }

    /** The idle edge itself, before its settle read. */
    method IdleLocked0()
      requires Served() && !detached
      modifies `st, `led, `out, `ops, `subs, `ended, log, hub`totalBytes
      ensures Served() && log == old(log)
      ensures LiveView() == IdleLive(old(LiveView()))
      ensures Elsewhere() == old(Elsewhere())
    {
      hide Served, EmitStatus;
      st := st.(gen := st.gen + 1);
      if st.turn {
        st := st.(turn := false, pendingEnd := true);
      }
      st := st.(base := IDLE);
      led := L.AfterSettle(led);
      EmitStatusLocked();
    }

    method OnStatusLocked(ev: Status, ghost now: int)
      requires Served() && !detached
      modifies `st, `led, `settlement, `readers, `out, `ops, `subs, `ended, log, hub`totalBytes
      ensures Served() && log == old(log)
      ensures View() == Handle(old(View()), StatusChanged(ev), now)
      ensures Elsewhere() == old(Elsewhere())
    {
      hide Served, Handle, LevelLive;
      if ev.provisional && ev.kind == Done {
        IdleLocked(now);
        HandleIdleAs(old(View()), ev, now);
        return;
      }
      HandleLevel(View(), ev, now);
      LevelLocked(ev);
    }

    method LevelLocked(ev: Status)
      requires Served() && !detached
      modifies `st, `led, `out, `ops, `subs, `ended, log, hub`totalBytes
      ensures Served() && log == old(log)
      ensures LiveView() == LevelLive(old(LiveView()), ev)
      ensures Elsewhere() == old(Elsewhere())
    {
      hide Served, StartTurn, EndTurn, EmitStatus;
      if ev.kind == Busy {
        StartTurnLocked();
      } else if ev.kind == Done || ev.kind == Error || ev.kind == Interrupted {
        EndTurnLocked(ev.kind);
        led := L.AfterSettle(led);
      }
      st := st.(base := Absolute(ev));
      EmitStatusLocked();
    }

    method AskedLocked(p: Prompt, ghost now: int)
      requires Served() && !detached
      modifies `st, `ov, `out, `ops, `subs, `ended, log, hub`totalBytes
      ensures Served() && log == old(log)
      ensures LiveView() == HandleLive(old(LiveView()), PromptAsked(p), now)
      ensures Elsewhere() == old(Elsewhere())
    {
      hide Served;
      var r, ok := Ask(ov, p);
      if ok {
        ov := r;
        PublishLocked(PromptAsked(p));
        EmitStatusLocked();
      }
    }

    method ResolvedLocked(id: string, ghost now: int)
      requires Served() && !detached
      modifies `st, `ov, `out, `ops, `subs, `ended, log, hub`totalBytes
      ensures Served() && log == old(log)
      ensures LiveView() == HandleLive(old(LiveView()), PromptResolved(id), now)
      ensures Elsewhere() == old(Elsewhere())
    {
      hide Served;
      var r, ok := Resolve(ov, id);
      if ok {
        ov := r;
        PublishLocked(PromptResolved(id));
        EmitStatusLocked();
      }
    }

    /** Folds an event into the live state and publishes what follows. */
    method HandleLocked(ev: Event, now: int)
      requires Served()
      modifies `st, `led, `ov, `settlement, `readers, `out, `ops, `subs, `ended, log, hub`totalBytes
      ensures Served() && log == old(log)
      ensures View() == Handle(old(View()), ev, now)
      ensures Elsewhere() == old(Elsewhere())
    {
      hide Served, Handle, HandleLive;
      if detached {
        DetachedIgnores(View(), ev, now);
        return;
      }
      if ev.StatusChanged? {
        OnStatusLocked(ev.status, now);
        return;
      }
      HandleOther(View(), ev, now);
      FoldLocked(ev, now);
    }

    /** Any event but a status: it folds into the overlay, and publishes unless it changes nothing. */
    method FoldLocked(ev: Event, now: int)
      requires Served() && !detached && !ev.StatusChanged?
      modifies `st, `led, `ov, `out, `ops, `subs, `ended, log, hub`totalBytes
      ensures Served() && log == old(log)
      ensures LiveView() == HandleLive(old(LiveView()), ev, now)
      ensures Elsewhere() == old(Elsewhere())
    {
      hide Served, EmitStatus, AskOverlay, ResolveOverlay, L.AfterEvent, L.AfterSettle;
      match ev {
        case StreamControl(_) =>
          return;
        case PromptAsked(p) =>
          AskedLocked(p, now);
          return;
        case PromptResolved(id) =>
          ResolvedLocked(id, now);
          return;
        case PromptJudge(j) =>
          if j.promptId in ov.resolved {
            return;
          }
          ov := ov.(judge := ov.judge[j.promptId := j]);
        case BackgroundChanged(b) =>
          if b == ov.background {
            return;
          }
          ov := ov.(background := b);
        case QueueChanged(q) =>
          ov := ov.(queue := Some(q));
        case StatusChanged(_) =>
          assert false;
        case _ =>
          led := L.AfterEvent(led, ev, now);
      }
      PublishLocked(ev);
    }

    /** Takes a settle reader's result; the reader goes on when a newer request waits. */
    method FinishSettlementLocked(i: nat, lc: Option<Lifecycle>)
      requires Served() && i < |readers| && settlement.pending.Some?
      modifies `st, `led, `settlement, `readers, `out, `ops, `subs, `ended, log, hub`totalBytes
      ensures Served() && log == old(log)
      ensures View() == FinishSettlement(old(View()), i, lc)
      ensures Elsewhere() == old(Elsewhere())
    {
      hide Served;
      var request, next := readers[i], settlement.pending.value;
      var others := readers[..i] + readers[i + 1..];
      var live := !detached && !stopping;
      if live && next != request && next.gen == st.gen && next.epoch == gen {
        readers := others + [next];
        return;
      }
      settlement, readers := Settlement(false, None), others;
      if live && request.epoch == gen {
        SettledLocked(request.gen, lc);
      }
    }

    // ---- subscribers ----

    /** The overlay a cold hello restates: a judge only for each open prompt. */
    method Greeting() returns (c: C.Client)
      ensures c == SR.Hello(LiveView())
    {
      var judge := map[];
      for i := 0 to |ov.prompts|
        invariant forall id :: id in judge <==> id in ov.judge && exists j :: 0 <= j < i && ov.prompts[j].id == id
        invariant forall id :: id in judge ==> judge[id] == ov.judge[id]
      {
        var id := ov.prompts[i].id;
        if id in ov.judge {
          judge := judge[id := ov.judge[id]];
        }
      }
      forall id
        ensures id in PromptMap(ov.prompts) <==> exists j :: 0 <= j < |ov.prompts| && ov.prompts[j].id == id
      {
        SR.MapIds(ov.prompts, id);
      }
      var status := if |ov.prompts| > 0 then WAITING else st.base;
      c := SessionModel.View(ov, status).(judge := judge, resolved := {}, content := SR.Greeted(led.content));
    }

    /** What a subscriber starts with: the replay after its cursor, or a greeting. */
    method StartLocked(after: Cursor) returns (sub: Subscription)
      requires log.Valid()
      ensures sub.epoch == log.epoch && sub.pushed == [] && sub.buffer == []
      ensures sub.resumed <==> after.Cursor? && log.Resumable(after.epoch, after.seqNo)
      ensures if sub.resumed then sub.cursor == after.seqNo && sub.replay == After(log.entries, sub.cursor)
              else sub.cursor == log.last && sub.replay == [] && sub.hello == SR.Hello(LiveView())
    {
      hide After, ReplayLog.WellFormed, SR.Hello, Within, Indexed, LiveView;
      var greeting := Greeting();
      sub := Subscription(log.epoch, log.last, false, greeting, [], [], []);
      if after.Cursor? && log.Resumable(after.epoch, after.seqNo) {
        var replay := log.Replay(after.seqNo);
        sub := sub.(cursor := after.seqNo, resumed := true, replay := replay);
      }
    }

    /** Attaches a subscriber at its cursor, or greets it with the whole overlay. */
    method AttachLocked(after: Cursor) returns (id: nat)
      requires Served() && !detached
      modifies `subs, `nextSub, `attachedAt
      ensures Served() && id == old(nextSub) && nextSub == id + 1 && id !in old(subs)
      ensures subs.Keys == old(subs).Keys + {id} && forall other :: other in old(subs) ==> subs[other] == old(subs)[other]
      ensures subs[id].pushed == []
      ensures subs[id].resumed <==> after.Cursor? && after.epoch == log.epoch && log.floor <= after.seqNo <= log.last
      ensures if subs[id].resumed then subs[id].cursor == after.seqNo
              else subs[id].cursor == log.last && subs[id].hello == SR.Hello(LiveView())
    {
      hide Continuous, CR.Run, After, ReplayLog.WellFormed, SR.Hello, Within, Indexed, Numbered, Sources, LiveView;
      ServedIds();
      var sub := StartLocked(after);
      AttachedNumbered(nextSub, subs, ended, left, sub);
      AttachContinuous(subs, attachedAt, log.maxBytes, log.maxEntries, ops, nextSub, sub);
      id := nextSub;
      nextSub := nextSub + 1;
      attachedAt := attachedAt[id := |ops|];
      subs := subs[id := sub];
    }

    /** Sends a frame that is not logged and moves no cursor. */
    method ControlLocked(ev: Event)
      requires Served()
      modifies `subs, `ended
      ensures Served() && forall id :: id in subs ==> id in old(subs) && Logged(subs[id].pushed) == Logged(old(subs)[id].pushed)
      ensures || (subs == old(subs) && ended == old(ended))
              || (subs == Fanned(old(subs), FrameMsg(log.last, ev, false)) && ended == old(ended) + Slow(old(subs)))
    {
      hide Continuous, CR.Run, Logged, Numbered, Slow, Sent, Full;
      var frame := Encode(ev);
      if frame.Frame? {
        var m := FrameMsg(log.last, ev, false);
        ControlFanned(subs, attachedAt, log.maxBytes, log.maxEntries, ops, m);
        FannedNumbered(nextSub, subs, ended, left, m);
        if !detached {
          FannedEpoch(subs, m, log.epoch);
        }
        FanoutLocked(m);
      }
    }

    /** A consumer takes the oldest frame of its buffer. */
    method Take(id: nat) returns (m: Option<FrameMsg>)
      requires Served() && id in subs
      modifies `subs
      ensures Served() && subs.Keys == old(subs).Keys && subs[id].pushed == old(subs)[id].pushed
      ensures if old(subs)[id].buffer == [] then m == None && subs == old(subs)
              else m == Some(old(subs)[id].buffer[0]) && subs == old(subs)[id := old(subs)[id].(buffer := old(subs)[id].buffer[1..])]
    {
      hide CR.Run, After, Logged, Continuous;
      var sub := subs[id];
      if sub.buffer == [] {
        return None;
      }
      m := Some(sub.buffer[0]);
      TakenContinuous(subs, attachedAt, log.maxBytes, log.maxEntries, ops, id);
      subs := subs[id := sub.(buffer := sub.buffer[1..])];
    }

    /** A consumer leaves. */
    method Close(id: nat)
      requires Served()
      modifies `subs, `left
      ensures Served() && subs == old(subs) - {id}
    {
      hide Continuous, CR.Run;
      subs, left := subs - {id}, left + {id};
    }

    /** Subscribes: at once on a stream that has connected, or when it first connects. */
    method Subscribe(after: Cursor) returns (id: Option<nat>)
      requires Served() && !detached
      modifies `subs, `nextSub, `attachedAt, `waiters
      ensures Served()
      ensures if everConnected then id == Some(old(nextSub)) && old(nextSub) in subs && waiters == old(waiters)
              else id == None && waiters == old(waiters) + [after] && subs == old(subs)
    {
      hide Served;
      if everConnected {
        var at := AttachLocked(after);
        return Some(at);
      }
      waiters := waiters + [after];
      id := None;
    }

    // ---- connections ----

    /** Nothing is served before the first connection. */
    ghost predicate Unopened()
      reads `everConnected, `ops, `subs, `log, log
    {
      !everConnected ==> ops == [] && subs == map[] && log.last == 0 && log.entries == []
    }

    /** A reconnect opens a new epoch: an empty log, no subscriber, the background and the queue. */
    method ResetLocked(epoch: nat)
      requires Served() && !detached && everConnected
      modifies `log, `ov, `subs, `ended, `ops, `out, hub`totalBytes
      ensures Served() && subs == map[] && out == []
      ensures fresh(log) && log.epoch == epoch && log.last == 0
      ensures ov == NEW_OVERLAY.(background := old(ov.background), queue := old(ov.queue))
      ensures Restarted(old(subs).Keys)
      ensures Elsewhere() == old(Elsewhere())
    {
      hide Served;
      ServedIds();
      ov := NEW_OVERLAY.(background := ov.background, queue := ov.queue);
      KillAllLocked(SourceRestarted);
      ReplaceLogLocked(epoch);
    }

    method ReplaceLogLocked(epoch: nat)
      requires subs == map[] && Numbered(nextSub, subs, ended, left)
      modifies `log, `ops, `out, hub`totalBytes
      ensures Served() && out == [] && fresh(log) && log.epoch == epoch && log.last == 0
      ensures Elsewhere() == old(Elsewhere())
    {
      hub.totalBytes := hub.totalBytes - log.bytes;
      log := new SessionLog(epoch, log.maxBytes, log.maxEntries);
      ops, out := [], [];
      assert log.bytes == 0;
      assert CR.Run(log.maxBytes, log.maxEntries, ops) == CR.Start(log.maxBytes, log.maxEntries);
      hide Continuous, CR.Run, WellFormed, Within, Indexed;
    }

    method KillAllLocked(reason: Reason)
      requires forall id :: id in ended ==> id !in subs
      modifies `subs, `ended
      ensures subs == map[]
      ensures forall id :: id in ended <==> id in old(ended) || id in old(subs)
      ensures forall id :: id in ended ==> ended[id] == if id in old(subs) then Ending(reason, old(subs)[id]) else old(ended)[id]
    {
      ghost var before, gone := subs, ended;
      var rest := subs.Keys;
      while rest != {}
        modifies `subs, `ended
        invariant subs.Keys == rest <= before.Keys && forall id :: id in subs ==> subs[id] == before[id]
        invariant forall id :: id in ended <==> id in gone || (id in before && id !in rest)
        invariant forall id :: id in ended ==> ended[id] == if id in before then Ending(reason, before[id]) else gone[id]
      {
        var id :| id in rest;
        KillLocked(id, reason);
        rest := rest - {id};
      }
    }

    /** Opens the seeded prompts and takes the seeded background. */
    method SeedOverlay(seed: Seed)
      modifies `ov
      ensures ov == (var asked := AskAll(old(ov).(liveConnect := true), seed.prompts);
                     if seed.background.Some? then asked.(background := seed.background.value) else asked)
    {
      ov := ov.(liveConnect := true);
      ghost var base := ov;
      for i := 0 to |seed.prompts|
        invariant ov == AskAll(base, seed.prompts[..i])
      {
        assert seed.prompts[..i + 1][..i] == seed.prompts[..i];
        var r, _ := Ask(ov, seed.prompts[i]);
        ov := r;
      }
      assert seed.prompts[..|seed.prompts|] == seed.prompts;
      if seed.background.Some? {
        ov := ov.(background := seed.background.value);
      }
    }

    /** A reconnect starts over; the first connection finds nothing to drop. */
    method RestartLocked(epoch: nat)
      requires Served() && !detached && Unopened()
      modifies `ov, `log, `subs, `ended, `ops, `out, hub`totalBytes
      ensures Served() && subs == map[] && out == [] && log.last == 0
      ensures if everConnected then fresh(log) && log.epoch == epoch else log == old(log)
      ensures ov == if everConnected then NEW_OVERLAY.(background := old(ov.background), queue := old(ov.queue)) else old(ov)
      ensures everConnected ==> Restarted(old(subs).Keys)
      ensures Elsewhere() == old(Elsewhere())
    {
      hide Served, Restarted, Elsewhere;
      ServedNothing();
      if everConnected {
        ResetLocked(epoch);
      }
    }

    method ArriveLocked(seed: Seed, epoch: nat)
      requires Served() && !detached && Unopened()
      modifies `st, `led, `ov, `everConnected, `connected, `log, `subs, `ended, `ops, `out, hub`totalBytes
      ensures Served() && subs == map[] && log.last == 0
      ensures if old(everConnected) then fresh(log) && log.epoch == epoch else log == old(log)
      ensures st == SeedStatus(old(st.gen), seed) && ov == ConnectOverlay(old(ov), old(everConnected), seed)
      ensures led == if SeededEnded(seed) then L.AfterSettle(old(led)) else old(led)
      ensures out == [] && everConnected && connected
      ensures old(everConnected) ==> Restarted(old(subs).Keys)
      ensures Elsewhere() == old(Elsewhere())
    {
      hide Served, AskAll, ConnectOverlay, Restarted, Elsewhere, L.AfterSettle, SeedStatus, SeededEnded, NewStatus;
      RestartLocked(epoch);
      SeedLocked(seed);
      SeededOverlay(old(ov), old(everConnected), seed);
    }

    /** What a connection takes from its seed. */
    method SeedLocked(seed: Seed)
      requires Served()
      modifies `st, `led, `ov, `everConnected, `connected
      ensures Served() && everConnected && connected && st == SeedStatus(old(st.gen), seed)
      ensures ov == (var asked := AskAll(old(ov).(liveConnect := true), seed.prompts);
                     if seed.background.Some? then asked.(background := seed.background.value) else asked)
      ensures led == if SeededEnded(seed) then L.AfterSettle(old(led)) else old(led)
    {
      hide Served, AskAll, L.AfterSettle, SeedStatus, SeededEnded;
      st := NewStatus(st.gen + 1);
      everConnected, connected := true, true;
      SeedOverlay(seed);
      SeedStatusLocked(seed, old(st.gen));
    }

    /** Takes the seeded level; without one it leaves room for the settle read to come. */
    method SeedStatusLocked(seed: Seed, ghost was: nat)
      requires st == NewStatus(was + 1)
      modifies `st, `led
      ensures st == SeedStatus(was, seed)
      ensures led == if SeededEnded(seed) then L.AfterSettle(old(led)) else old(led)
    {
      hide L.AfterSettle;
      if seed.status.Some? {
        st := st.(base := Absolute(seed.status.value), turn := seed.status.value.kind == Busy);
        if !st.turn {
          led := L.AfterSettle(led);
        }
      } else {
        st := st.(gen := st.gen + 1);
      }
    }

    /** Everything a connection sets up before anyone is attached to it. */
    method OpenLocked(seed: Seed, epoch: nat)
      requires Served() && !detached && Unopened()
      modifies `st, `led, `ov, `settlement, `readers, `everConnected, `connected, `log, `subs, `ended, `ops, `out,
               `start, `seededBusy, log, hub`totalBytes
      ensures Served() && subs == map[] && log.last == 0 && out == [] && everConnected
      ensures if old(everConnected) then fresh(log) && log.epoch == epoch else log == old(log)
      ensures View() == Connect(old(View()), seed)
      ensures old(everConnected) ==> Restarted(old(subs).Keys)
      ensures Elsewhere() == old(Elsewhere())
    {
      hide Served, ScheduleSettle, ConnectOverlay, OpenEpoch, View, LiveView, Restarted, Elsewhere;
      ArrivedLocked(seed, epoch);
      if seed.status.None? {
        AskSettleLocked();
      }
      ShowLocked();
    }

    method ArrivedLocked(seed: Seed, epoch: nat)
      requires Served() && !detached && Unopened()
      modifies `st, `led, `ov, `everConnected, `connected, `log, `subs, `ended, `ops, `out, hub`totalBytes
      ensures Served() && subs == map[] && log.last == 0 && out == [] && everConnected
      ensures if old(everConnected) then fresh(log) && log.epoch == epoch else log == old(log)
      ensures View() == Arrive(old(View()), seed)
      ensures old(everConnected) ==> Restarted(old(subs).Keys)
      ensures Elsewhere() == old(Elsewhere())
    {
      hide Served, Restarted, Elsewhere, ConnectOverlay, SeedStatus;
      ArriveLocked(seed, epoch);
    }

    /** A settle read for a source that did not say how the session stands. */
    method AskSettleLocked()
      requires Served() && !detached && !View().live.st.pendingEnd
      modifies `st, `led, `settlement, `readers, `out, `ops, `subs, `ended, log, hub`totalBytes
      ensures Served() && log.last == old(log.last) && subs == old(subs) && ended == old(ended)
      ensures View() == ScheduleSettle(old(View()), old(View().live.st.gen)) && out == old(out)
      ensures Elsewhere() == old(Elsewhere())
    {
      hide Served, ScheduleSettle;
      SR.ScheduleQuiet(View(), st.gen, LiveView());
      ScheduleSettleLocked(st.gen);
    }

    method ShowLocked()
      requires Served() && !detached && out == []
      modifies `st, `start, `seededBusy
      ensures Served() && View() == old(View()).(live := OpenEpoch(old(View()).live))
    {
      hide Served, SessionModel.View;
      var shown := if |ov.prompts| > 0 then WAITING else st.base;
      st := st.(emitted := shown);
      start, seededBusy := SessionModel.View(ov, shown), st.turn;
    }

    /**
     Starts serving a connection. The subscribers of the one before are reset, and those
     waiting for the first are attached before anything of this epoch is published.
     */
    method ConnectLocked(seed: Seed, epoch: nat)
      requires Served() && !detached && Unopened()
      modifies `st, `led, `ov, `settlement, `readers, `everConnected, `connected, `log, `subs, `ended, `ops, `out,
               `start, `seededBusy, `waiters, `nextSub, `attachedAt, log, hub`totalBytes
      ensures Served() && everConnected && waiters == []
      ensures View() == Connect(old(View()), seed) && out == []
      ensures if old(everConnected) then fresh(log) && log.epoch == epoch else log == old(log)
      ensures forall id :: id in subs <==> old(nextSub) <= id < old(nextSub) + |old(waiters)|
      ensures forall id :: id in subs ==> subs[id].pushed == [] && subs[id].cursor == 0
      ensures old(everConnected) ==> Restarted(old(subs).Keys)
      ensures Elsewhere() == old(Elsewhere())
    {
      hide Served, Connect;
      OpenLocked(seed, epoch);
      AttachWaitersLocked();
    }

    /** Each waiter is attached, in order, at the start of the epoch. */
    method AttachWaitersLocked()
      requires Served() && !detached && subs == map[] && log.last == 0
      modifies `waiters, `subs, `nextSub, `attachedAt
      ensures Served() && waiters == []
      ensures forall id :: id in subs <==> old(nextSub) <= id < old(nextSub) + |old(waiters)|
      ensures forall id :: id in subs ==> subs[id].pushed == [] && subs[id].cursor == 0
    {
      hide Served;
      ghost var first := nextSub;
      var i := 0;
      while i < |waiters|
        modifies `subs, `nextSub, `attachedAt
        invariant Served() && i <= |waiters| && nextSub == first + i
        invariant forall id :: id in subs <==> first <= id < first + i
        invariant forall id :: id in subs ==> subs[id].pushed == [] && subs[id].cursor == 0
      {
        var id := AttachLocked(waiters[i]);
        assert subs[id].cursor == 0;
        i := i + 1;
      }
      waiters := [];
    }

    // ---- the steps of a source and of the hub ----

    method NewSink()
      requires Served() && Unopened()
      modifies `gen, `sinkConnected, `sinkClosed
      ensures Served() && Unopened() && View() == Do(old(View()), Step.NewSink)
    {
      hide Served;
      if sinkClosed {
        gen, sinkConnected, sinkClosed := gen + 1, false, false;
      }
    }

    /** Late callbacks of an ended connection never reach a newer epoch. */
    method Connected(sink: nat, seed: Seed, epoch: nat)
      requires Served() && Unopened()
      modifies `st, `led, `ov, `settlement, `readers, `everConnected, `connected, `log, `subs, `ended, `ops, `out,
               `start, `seededBusy, `waiters, `nextSub, `attachedAt, `sinkConnected, log, hub`totalBytes
      ensures Served() && Unopened() && View() == Do(old(View()), Step.Connected(sink, seed))
      ensures log == old(log) || fresh(log)
      ensures Elsewhere() == old(Elsewhere())
    {
      hide Served, Connect;
      if sinkClosed || sink != gen || detached || sinkConnected {
        return;
      }
      sinkConnected := true;
      ConnectLocked(seed, epoch);
    }

    method Emit(sink: nat, ev: Event, now: int)
      requires Served() && Unopened() && (!Stale(View(), sink) ==> everConnected)
      modifies `st, `led, `ov, `settlement, `readers, `out, `ops, `subs, `ended, log, hub`totalBytes
      ensures Served() && Unopened() && View() == Do(old(View()), Step.Emit(sink, ev, now))
      ensures Elsewhere() == old(Elsewhere())
    {
      hide Served, Handle;
      if sinkClosed || sink != gen || detached {
        return;
      }
      HandleLocked(ev, now);
    }

    /** A synthetic event reaches a stream that has connected. */
    method Publish(ev: Event, now: int)
      requires Served() && Unopened()
      modifies `st, `led, `ov, `settlement, `readers, `out, `ops, `subs, `ended, log, hub`totalBytes
      ensures Served() && Unopened() && View() == Do(old(View()), HubPublish(ev, now))
      ensures Elsewhere() == old(Elsewhere())
    {
      hide Served, Handle;
      if everConnected {
        HandleLocked(ev, now);
      }
    }

    /** The source's connection ended; its failure is told without moving a cursor. */
    method WatchEnded(failure: Option<int>)
      requires Served() && Unopened()
      modifies `sinkClosed, `connected, `ov, `subs, `ended
      ensures Served() && Unopened() && View() == Do(old(View()), Step.WatchEnded)
      ensures || (subs == old(subs) && ended == old(ended))
              || (failure.Some? && subs == Fanned(old(subs), FrameMsg(log.last, StreamControl(failure.value), false))
                  && ended == old(ended) + Slow(old(subs)))
    {
      hide Served, Do, Fanned, Slow, View, LiveView;
      var told := EndSink();
      if told && failure.Some? {
        ControlLocked(StreamControl(failure.value));
      }
    }

    /** Closes the sink; it reports whether subscribers are to be told of a failure. */
    method EndSink() returns (told: bool)
      modifies `sinkClosed, `connected, `ov
      ensures View() == Do(old(View()), Step.WatchEnded)
      ensures told <==> !detached && !stopping && everConnected
    {
      sinkClosed := true;
      told := !detached && !stopping && everConnected;
      if told {
        connected, ov := false, ov.(liveConnect := false);
      }
    }

    /**
     Ends the session: its log is returned to the budget, its content waits for history, and
     no step publishes again; its subscribers keep what they were sent.
     */
    method Detach(epoch: nat, now: int)
      requires Served() && Unopened()
      modifies `detached, `led, `log, hub`totalBytes
      ensures Served() && Unopened() && detached && View() == Do(old(View()), Step.Detach(now))
      ensures fresh(log) && log.bytes == 0 && log.epoch == epoch
      ensures Elsewhere() == old(Elsewhere())
    {
      hide Served, L.AfterSettle, Unopened, Elsewhere;
      DropLog(epoch);
      led := L.AfterSettle(led).(touched := now);
    }

    /** The log goes; what the subscribers were sent stays. */
    method DropLog(epoch: nat)
      requires Served() && Unopened()
      modifies `detached, `log, hub`totalBytes
      ensures Served() && Unopened() && detached
      ensures fresh(log) && log.bytes == 0 && log.epoch == epoch
      ensures Elsewhere() == old(Elsewhere())
    {
      hide CR.Run, Continuous, Numbered, WellFormed, Within, Indexed, Sources;
      hub.totalBytes := hub.totalBytes - log.bytes;
      log := new SessionLog(epoch, log.maxBytes, log.maxEntries);
      detached := true;
      assert log.bytes == 0;
    }

    /** The hub closes: every subscriber left is ended, with what it was sent. */
    method EndAll()
      requires Served() && detached
      modifies `subs, `ended
      ensures Served() && subs == map[]
      ensures forall id :: id in old(subs) ==> id in ended && ended[id] == Ending(Shutdown, old(subs)[id])
      ensures forall id :: id in old(ended) ==> id in ended && ended[id] == old(ended)[id]
    {
      hide CR.Run, Continuous, WellFormed, Within, Indexed, Sources;
      ServedIds();
      KillAllLocked(Shutdown);
    }

    /** What a read or the budget does to the session's ledger. */
    method LedgerMoves(op: LedgerOp)
      requires Served() && Unopened()
      modifies `led
      ensures Served() && Unopened() && View() == Do(old(View()), LedgerStep(op))
    {
      hide Served;
      if !detached {
        led := Ledgered(led, op);
      }
    }
  }

  // ---- the hub's total ----

  /** The bytes of each session's log. */
  ghost function Sizes(sessions: set<Session>): map<Session, int>
    reads sessions, set s | s in sessions :: s.log
  {
    map s | s in sessions :: s.log.bytes
  }

  ghost function Total(sizes: map<Session, int>): int
    decreases sizes.Keys
  {
    if sizes == map[] then 0 else var s :| s in sizes; sizes[s] + Total(sizes - {s})
  }

  lemma {:induction false} TotalRemove(sizes: map<Session, int>, s: Session)
    requires s in sizes
    ensures Total(sizes) == sizes[s] + Total(sizes - {s})
    decreases sizes.Keys
  {
    var t :| t in sizes && Total(sizes) == sizes[t] + Total(sizes - {t});
    if t != s {
      TotalRemove(sizes - {t}, s);
      TotalRemove(sizes - {s}, t);
      assert sizes - {t} - {s} == sizes - {s} - {t};
    }
  }

  /** A step of one session that keeps what the hub counts elsewhere keeps the hub's total true. */
  lemma HubTotal(was: map<Session, int>, now: map<Session, int>, s: Session, before: int, after: int)
    requires s in was && now.Keys == was.Keys && forall x :: x in was && x != s ==> now[x] == was[x]
    requires before == Total(was) && after - now[s] == before - was[s]
    ensures after == Total(now)
  {
    TotalRemove(was, s);
    TotalRemove(now, s);
    assert was - {s} == now - {s};
  }

  /** The hub counts the bytes of all its sessions' logs, each its own. */
  ghost predicate Counted(hub: Hub, sessions: set<Session>)
    reads hub, sessions, set x | x in sessions :: x.log
  {
    && (forall x :: x in sessions ==> x.hub == hub)
    && (forall x, y :: x in sessions && y in sessions && x.log == y.log ==> x == y)
    && hub.totalBytes == Total(Sizes(sessions))
  }

  /** Whatever an event does to its session's log, and to the hub's budget with it, the hub's total stays true. */
  method PublishTo(hub: Hub, sessions: set<Session>, s: Session, ev: Event, now: int)
    requires Counted(hub, sessions) && s in sessions && s.Served() && s.Unopened()
    modifies s, s.log, hub
    ensures Counted(hub, sessions)
    ensures s.Served() && s.Unopened() && s.View() == Do(old(s.View()), HubPublish(ev, now))
  {
    hide Session.Served, Session.Unopened, Session.View, Do;
    ghost var was, before := Sizes(sessions), hub.totalBytes;
    s.Publish(ev, now);
    HubTotal(was, Sizes(sessions), s, before, hub.totalBytes);
  }

  /** A connection starts a session's log anew; the hub's total stays true. */
  method ConnectOf(hub: Hub, sessions: set<Session>, s: Session, sink: nat, seed: Seed, epoch: nat)
    requires Counted(hub, sessions) && s in sessions && s.Served() && s.Unopened()
    modifies s, s.log, hub
    ensures Counted(hub, sessions)
    ensures s.Served() && s.Unopened() && s.View() == Do(old(s.View()), Step.Connected(sink, seed))
  {
    hide Session.Served, Session.Unopened, Session.View, Do;
    ghost var was, before := Sizes(sessions), hub.totalBytes;
    s.Connected(sink, seed, epoch);
    HubTotal(was, Sizes(sessions), s, before, hub.totalBytes);
  }

  /** The hub lets go of a session and of its bytes. */
  method DetachFrom(hub: Hub, sessions: set<Session>, s: Session, epoch: nat, now: int)
    requires Counted(hub, sessions) && s in sessions && s.Served() && s.Unopened()
    modifies s, s.log, hub
    ensures Counted(hub, sessions - {s})
    ensures s.Served() && s.View() == Do(old(s.View()), Step.Detach(now))
  {
    hide Session.Served, Session.Unopened, Session.View, Do;
    ghost var was, before := Sizes(sessions), hub.totalBytes;
    s.Detach(epoch, now);
    HubTotal(was, Sizes(sessions), s, before, hub.totalBytes);
    TotalRemove(Sizes(sessions), s);
    assert Sizes(sessions) - {s} == Sizes(sessions - {s});
  }
}

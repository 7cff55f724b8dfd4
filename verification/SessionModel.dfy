/**
 One session's turn and status machine, its live overlay, the ledger of its content and its
 settle reads, as functions of the state each atomic step starts from. `out` is what the
 current connection's epoch published, in order.
 */
module SessionModel {
  import opened Events
  import C = Client
  import L = LedgerModel
  import SC = StreamContent

  datatype StatusState = StatusState(base: Status, emitted: Status, turn: bool, pendingEnd: bool, gen: nat)

  datatype Overlay = Overlay(
    prompts: seq<Prompt>,
    judge: map<string, Judge>,
    resolved: set<string>,
    background: Background,
    queue: Option<seq<int>>,
    liveConnect: bool)

  /** A settle read: the lifecycle generation and the connection it was asked for. */
  datatype Request = Request(gen: nat, epoch: nat)

  datatype Settlement = Settlement(reading: bool, pending: Option<Request>)

  datatype Lifecycle = Lifecycle(kind: StatusKind, latest: string)

  datatype Seed = Seed(status: Option<Status>, prompts: seq<Prompt>, background: Option<Background>)

  /** The live state one epoch serves, what it published and what it opened with. */
  datatype Live = Live(st: StatusState, ov: Overlay, led: L.LedgerState, out: seq<Event>, start: C.Client, seededBusy: bool)

  datatype State = State(
    live: Live,
    settlement: Settlement,
    readers: seq<Request>,     // the settle readers running
    gen: nat,                  // the newest sink
    sinkConnected: bool,
    sinkClosed: bool,
    everConnected: bool,
    connected: bool,
    detached: bool,
    stopping: bool,            // workers start nothing and their reads are void
    settles: bool)             // the source can read a settled lifecycle

  const IDLE: Status := Status(Done, true, Cleared, 0)
  const WAITING: Status := Status(Waiting, false, Cleared, 0)

  function NewStatus(gen: nat): StatusState { StatusState(IDLE, IDLE, false, false, gen) }

  const NEW_OVERLAY: Overlay := Overlay([], map[], {}, Background(0, []), None, false)

  /** A session takes over the ledger its key's earlier sessions left. */
  function NewSession(settles: bool, led: L.LedgerState): State {
    State(Live(NewStatus(0), NEW_OVERLAY, led, [], View(NEW_OVERLAY, IDLE), false),
          Settlement(false, None), [], 0, false, true, false, false, false, false, settles)
  }

  // ---- the overlay ----

  function PromptMap(ps: seq<Prompt>): map<string, Prompt> {
    if ps == [] then map[] else PromptMap(ps[1..])[ps[0].id := ps[0]]
  }

  /** The overlay as the client reducer holds it, without content. */
  function View(ov: Overlay, status: Status): C.Client {
    C.Client(status, PromptMap(ov.prompts), ov.judge, ov.resolved, ov.background, ov.queue, SC.EMPTY)
  }

  function PutPrompt(ps: seq<Prompt>, p: Prompt): seq<Prompt> {
    if ps == [] then [p]
    else if ps[0].id == p.id then [p] + ps[1..]
    else [ps[0]] + PutPrompt(ps[1..], p)
  }

  function CutPrompt(ps: seq<Prompt>, id: string): seq<Prompt> {
    if ps == [] then []
    else if ps[0].id == id then ps[1..]
    else [ps[0]] + CutPrompt(ps[1..], id)
  }

  /** Opens a prompt; a repeat replaces it in place, a resolved one is refused. */
  function AskOverlay(ov: Overlay, p: Prompt): Overlay {
    if p.id in ov.resolved then ov else ov.(prompts := PutPrompt(ov.prompts, p))
  }

  function ResolveOverlay(ov: Overlay, id: string): Overlay {
    if id in ov.resolved then ov
    else ov.(resolved := ov.resolved + {id}, judge := ov.judge - {id}, prompts := CutPrompt(ov.prompts, id))
  }

  function AskAll(ov: Overlay, ps: seq<Prompt>): Overlay {
    if ps == [] then ov else AskOverlay(AskAll(ov, ps[..|ps| - 1]), ps[|ps| - 1])
  }

  // ---- levels and edges ----

  function Absolute(s: Status): Status {
    s.(notice := if s.notice.Absent? then Cleared else s.notice,
       resetsAt := if s.kind != Limited then 0 else s.resetsAt)
  }

  /** Any open prompt holds the session waiting. */
  function Effective(ov: Overlay, base: Status): Status {
    if |ov.prompts| > 0 then WAITING else base
  }

  function Publish(l: Live, e: Event): Live { l.(out := l.out + [e]) }

  /** The content held is an ended turn's. */
  function SettleLedger(l: Live): Live { l.(led := L.AfterSettle(l.led)) }

  function EmitStatus(l: Live): (t: Live)
    ensures t == l.(st := l.st.(emitted := Effective(l.ov, l.st.base)), out := t.out)
  {
    var e := Effective(l.ov, l.st.base);
    if e == l.st.emitted then l else Publish(l.(st := l.st.(emitted := e)), StatusChanged(e))
  }

  function EndPendingTurn(l: Live, outcome: StatusKind, latest: string, gen: nat): Live {
    if l.st.pendingEnd then Publish(l.(st := l.st.(pendingEnd := false, gen := gen)), TurnEnded(outcome, latest)) else l
  }

  /** Opens a turn, first ending one whose settle is pending. */
  function StartTurn(l: Live): (t: Live)
    ensures !t.st.pendingEnd && l.st.gen <= t.st.gen
  {
    var l1 := EndPendingTurn(l, Done, "", l.st.gen + 1);
    if l1.st.turn then l1 else Publish(l1.(st := l1.st.(turn := true)), TurnStarted(0))
  }

  function EndTurn(l: Live, outcome: StatusKind): (t: Live)
    ensures !t.st.pendingEnd && l.st.gen <= t.st.gen
  {
    if !l.st.turn && !l.st.pendingEnd then l
    else Publish(l.(st := l.st.(gen := l.st.gen + 1, turn := false, pendingEnd := false)), TurnEnded(outcome, ""))
  }

  /** A settled read's outcome, and the level it settles when it settles one. */
  function SettledOutcome(lc: Option<Lifecycle>): (StatusKind, Option<StatusKind>) {
    if lc.None? then (Done, None)
    else match lc.value.kind
      case Error => (Error, Some(Error))
      case Interrupted => (Interrupted, Some(Interrupted))
      case Waiting => (Done, Some(Waiting))
      case Done => (Done, Some(Done))
      case _ => (Done, None)
  }

  /** Ends the pending turn with the settled outcome, and lifts a provisional level. */
  function SettleLive(l: Live, lc: Option<Lifecycle>): (t: Live)
    ensures !t.st.pendingEnd && t.st.gen == l.st.gen
    ensures !l.st.base.provisional ==> t.st.base == l.st.base
  {
    var (outcome, level) := SettledOutcome(lc);
    var l1 := EndPendingTurn(l, outcome, if lc.Some? then lc.value.latest else "", l.st.gen);
    var l2 := if level.Some? && level.value != Waiting then SettleLedger(l1) else l1;
    if level.Some? && l2.st.base.provisional
    then EmitStatus(l2.(st := l2.st.(base := Status(level.value, false, Cleared, 0))))
    else l2
  }

  /** An overtaken read does nothing. */
  function Settled(s: State, gen: nat, lc: Option<Lifecycle>): State {
    if s.detached || gen != s.live.st.gen then s else s.(live := SettleLive(s.live, lc))
  }

  function ScheduleSettle(s: State, gen: nat): State {
    if !s.settles then Settled(s, gen, None)
    else if s.detached then s
    else
      var request := Request(gen, s.gen);
      if s.settlement.reading then s.(settlement := s.settlement.(pending := Some(request)))
      else if s.stopping then Settled(s.(settlement := Settlement(false, None)), gen, None)
      else s.(settlement := Settlement(true, Some(request)), readers := s.readers + [request])
  }

  /** A provisional done at once. */
  function IdleLive(l: Live): (t: Live)
    ensures t.st.gen == l.st.gen + 1
  {
    EmitStatus(SettleLedger(l.(st := l.st.(gen := l.st.gen + 1, turn := false, pendingEnd := l.st.pendingEnd || l.st.turn, base := IDLE))))
  }

  /** The turn edge an observed level implies; an ended one settles the content. */
  function Edge(l: Live, kind: StatusKind): (t: Live)
    ensures t.st.pendingEnd ==> l.st.pendingEnd && t.st.gen == l.st.gen
    ensures l.st.gen <= t.st.gen
  {
    match kind
    case Busy => StartTurn(l)
    case Done => SettleLedger(EndTurn(l, Done))
    case Error => SettleLedger(EndTurn(l, Error))
    case Interrupted => SettleLedger(EndTurn(l, Interrupted))
    case _ => l
  }

  function LevelLive(l: Live, ev: Status): Live {
    var l1 := Edge(l, ev.kind);
    EmitStatus(l1.(st := l1.st.(base := Absolute(ev))))
  }

  predicate IdleEdge(e: Event) { e.StatusChanged? && e.status.provisional && e.status.kind == Done }

  /** Folds an event into the live state and publishes what follows, short of a settle read. */
  function HandleLive(l: Live, ev: Event, now: int): (t: Live)
    ensures !IdleEdge(ev) && t.st.pendingEnd ==> l.st.pendingEnd && t.st.gen == l.st.gen
    ensures l.st.gen <= t.st.gen
  {
    match ev
    case StatusChanged(status) => if IdleEdge(ev) then IdleLive(l) else LevelLive(l, status)
    case StreamControl(_) => l
    case PromptAsked(p) =>
      if p.id in l.ov.resolved then l
      else EmitStatus(Publish(l.(ov := AskOverlay(l.ov, p)), ev))
    case PromptResolved(id) =>
      if id in l.ov.resolved then l
      else EmitStatus(Publish(l.(ov := ResolveOverlay(l.ov, id)), ev))
    case PromptJudge(j) =>
      if j.promptId in l.ov.resolved then l
      else Publish(l.(ov := l.ov.(judge := l.ov.judge[j.promptId := j])), ev)
    case BackgroundChanged(b) =>
      if b == l.ov.background then l else Publish(l.(ov := l.ov.(background := b)), ev)
    case QueueChanged(q) => Publish(l.(ov := l.ov.(queue := Some(q))), ev)
    case _ => Publish(l.(led := L.AfterEvent(l.led, ev, now)), ev)
  }

  /** An idle edge also settles the terminal kind off the lock. */
  function Handle(s: State, ev: Event, now: int): State {
    if s.detached then s
    else
      var s1 := s.(live := HandleLive(s.live, ev, now));
      if IdleEdge(ev) then ScheduleSettle(s1, s1.live.st.gen) else s1
  }

  // ---- connections ----

  /** The overlay a connection starts from: a reconnect keeps only background and queue. */
  function ConnectOverlay(ov: Overlay, reconnect: bool, seed: Seed): Overlay {
    var base := if reconnect then NEW_OVERLAY.(background := ov.background, queue := ov.queue) else ov;
    var asked := AskAll(base.(liveConnect := true), seed.prompts);
    if seed.background.Some? then asked.(background := seed.background.value) else asked
  }

  /** Opens an epoch on the current levels. */
  function OpenEpoch(l: Live): Live {
    var e := Effective(l.ov, l.st.base);
    Live(l.st.(emitted := e), l.ov, l.led, [], View(l.ov, e), l.st.turn)
  }

  /** The status a connection starts from: two generations on when a settle read must find it. */
  function SeedStatus(gen: nat, seed: Seed): StatusState {
    if seed.status.Some?
    then NewStatus(gen + 1).(base := Absolute(seed.status.value), turn := seed.status.value.kind == Busy)
    else NewStatus(gen + 2)
  }

  /** A turn that ended while the source was away sends no idle edge. */
  predicate SeededEnded(seed: Seed) { seed.status.Some? && seed.status.value.kind != Busy }

  /** The state a connection starts from, before its epoch opens. */
  function Arrive(s: State, seed: Seed): State {
    s.(everConnected := true, connected := true,
       live := s.live.(st := SeedStatus(s.live.st.gen, seed), ov := ConnectOverlay(s.live.ov, s.everConnected, seed), out := [],
                       led := if SeededEnded(seed) then L.AfterSettle(s.live.led) else s.live.led))
  }

  function Connect(s: State, seed: Seed): State {
    var a := Arrive(s, seed);
    var b := if seed.status.Some? then a else ScheduleSettle(a, a.live.st.gen);
    b.(live := OpenEpoch(b.live))
  }

  /** A reader's result: it publishes only for the request and connection still current. */
  function FinishSettlement(s: State, i: nat, lc: Option<Lifecycle>): State
    requires i < |s.readers| && s.settlement.pending.Some?
  {
    var request := s.readers[i];
    var next := s.settlement.pending.value;
    var others := s.readers[..i] + s.readers[i + 1..];
    var live := !s.detached && !s.stopping;
    if live && next != request && next.gen == s.live.st.gen && next.epoch == s.gen
    then s.(readers := others + [next])
    else
      var s1 := s.(settlement := Settlement(false, None), readers := others);
      if live && request.epoch == s.gen then Settled(s1, request.gen, lc) else s1
  }

  /** What the reads of a session and the hub's budget do to its ledger. */
  datatype LedgerOp =
    | ReadBegins
    | ReadCommits(view: L.LedgerView, page: L.Rows)
    | ReadEnds(ticket: nat, endedAt: int)
    | Evicts(ms: set<string>, ps: set<string>)

  function Ledgered(l: L.LedgerState, op: LedgerOp): L.LedgerState {
    match op
    case ReadBegins => L.AfterBegin(l)
    case ReadCommits(view, page) => L.AfterCommit(l, view, page)
    case ReadEnds(ticket, endedAt) => L.AfterEnd(l, ticket, endedAt)
    case Evicts(ms, ps) => l.(content := L.Less(l.content, ms, ps), settled := l.settled - ms)
  }

  datatype Step =
    | NewSink
    | Connected(sink: nat, seed: Seed)
    | Emit(sink: nat, ev: Event, now: int)
    | HubPublish(synthetic: Event, at: int)
    | WatchEnded
    | SettleRead(reader: nat, lc: Option<Lifecycle>)
    | LedgerStep(op: LedgerOp)
    | Detach(detachedAt: int)
    | Stop

  predicate Stale(s: State, sink: nat) { s.sinkClosed || sink != s.gen || s.detached }

  function Do(s: State, step: Step): State {
    match step
    case NewSink =>
      if !s.sinkClosed then s else s.(gen := s.gen + 1, sinkConnected := false, sinkClosed := false)
    case Connected(sink, seed) =>
      if Stale(s, sink) || s.sinkConnected then s else Connect(s.(sinkConnected := true), seed)
    case Emit(sink, ev, now) => if Stale(s, sink) then s else Handle(s, ev, now)
    case HubPublish(ev, at) => if s.everConnected then Handle(s, ev, at) else s
    case WatchEnded =>
      if s.detached || s.stopping || !s.everConnected then s.(sinkClosed := true)
      else s.(sinkClosed := true, connected := false, live := s.live.(ov := s.live.ov.(liveConnect := false)))
    case SettleRead(i, lc) =>
      if i >= |s.readers| || s.settlement.pending.None? then s else FinishSettlement(s, i, lc)
    case LedgerStep(op) => if s.detached then s else s.(live := s.live.(led := Ledgered(s.live.led, op)))
    case Detach(at) => s.(detached := true, live := s.live.(led := L.AfterSettle(s.live.led).(touched := at)))
    case Stop => s.(stopping := true)
  }

  /** What a source promises: it connects before it emits and emits no turn edges. */
  predicate Contract(s: State, step: Step) {
    && (step.Emit? ==> !IsTurnEdge(step.ev) && (!Stale(s, step.sink) ==> s.sinkConnected))
    && (step.HubPublish? ==> !IsTurnEdge(step.synthetic))
  }

  function Run(s: State, steps: seq<Step>): State
    decreases |steps|
  {
    if steps == [] then s else Run(Do(s, steps[0]), steps[1..])
  }

  predicate Contracted(s: State, steps: seq<Step>)
    decreases |steps|
  {
    steps == [] || (Contract(s, steps[0]) && Contracted(Do(s, steps[0]), steps[1..]))
  }
}

/**
 Conversation reads against a stream and a history that lags it, in every interleaving of
 events, reads and ingestion: what a composed read holds of everything the stream built.
 */
module LedgerRuns {
  import opened Events
  import opened Utf16
  import opened StreamContent
  import opened LedgerModel

  /** A read under a ticket: history had `floor` as its newest version when it began. */
  datatype Read =
    | Begun(floor: nat)
    | Queried(floor: nat, version: nat, page: Rows, limit: nat)
    | Captured(floor: nat, version: nat, page: Rows, limit: nat, view: LedgerView)
    | Composed(floor: nat)

  /**
   `owed` is everything the ledger took from the stream that was not removed, evicted or
   forgotten; `gone` names the rest, and `dead` what the stream removed. `sec` is a history
   version that stores a confirmed entry.
   */
  datatype World = World(
    led: LedgerState,
    hist: seq<Rows>,
    tickets: map<nat, Read>,
    owed: Content,
    gone: set<RowKey>,
    dead: set<RowKey>,
    sec: map<RowKey, nat>)

  datatype Step =
    | Stream(ev: Event, now: int)
    | Settle
    | Begin
    | Query(ticket: nat, page: Rows, limit: nat)
    | TakeView(ticket: nat)
    | Commit(ticket: nat)
    | End(ticket: nat, now: int)
    | Ingest(rows: Rows)
    | Evict(ms: set<string>, ps: set<string>)

  const NEW_LEDGER: LedgerState := LedgerState(EMPTY, {}, map[], map[], map[], 0, {}, 0)

  function NewWorld(rows: Rows): World { World(NEW_LEDGER, [rows], map[], EMPTY, {}, {}, map[]) }

  function Latest(w: World): Rows
    requires |w.hist| > 0
  {
    w.hist[|w.hist| - 1]
  }

  // ---- what the runs assume ----

  /** A row removed or forgotten, itself or with its message. */
  predicate Lost(gone: set<RowKey>, owner: string -> string, k: RowKey) {
    k in gone || (k.P? && M(owner(k.id)) in gone)
  }

  function Named(ev: Event): set<RowKey> {
    match ev
    case PartDelta(p, _, _, _) => {P(p)}
    case PartUpserted(p, _) => {P(p.id), M(p.messageId)}
    case MessageUpserted(m) => {M(m.id)}
    case _ => {}
  }

  predicate CompletedIn(d: Rows, mid: string) { mid in d.msgs && Completed(d.msgs[mid].data) }

  /** History only moves forward: only a removed row leaves, and only a completed message sheds text. */
  ghost predicate Forward(h: Rows, g: Rows, gone: set<RowKey>, owner: string -> string) {
    && (forall id :: id in h.msgs && M(id) !in gone ==>
          && id in g.msgs
          && EndingCovered(h.msgs[id].data, g.msgs[id].data)
          && (Completed(h.msgs[id].data) ==> Completed(g.msgs[id].data)))
    && (forall p :: p in h.parts && !Lost(gone, owner, P(p)) && !CompletedIn(g, owner(p)) ==>
          p in g.parts && Fuller(h.parts[p].data, g.parts[p].data))
  }

  ghost predicate Fuller(d: PartData, e: PartData) { forall f :: Units(Have(d, f)) <= Units(Have(e, f)) }

  /** A newest page of history: whole messages, none left out that is newer than one in it. */
  ghost predicate PageOf(d: Rows, h: Rows, limit: nat) {
    && (forall id :: id in d.msgs ==> id in h.msgs && d.msgs[id] == h.msgs[id])
    && (forall p :: p in d.parts <==> p in h.parts && h.parts[p].messageId in d.msgs)
    && (forall p :: p in d.parts ==> d.parts[p] == h.parts[p])
    && (forall id :: id in h.msgs && id !in d.msgs ==>
          limit > 0 && |d.msgs| >= limit && forall i :: i in d.msgs ==> h.msgs[id].timeCreated <= d.msgs[i].timeCreated)
  }

  /** The page of everything stored. */
  function WholePage(d: Rows): (page: Rows)
    ensures PageOf(page, d, 0) && page.msgs == d.msgs
  {
    d.(parts := map p | p in d.parts && d.parts[p].messageId in d.msgs :: d.parts[p])
  }

  ghost predicate Owned(parts: map<string, Part>, owner: string -> string) {
    forall p :: p in parts ==> parts[p].messageId == owner(p)
  }

  /** Each row keeps its message, and no row is named again once it is gone. */
  ghost predicate Legal(w: World, step: Step, owner: string -> string)
    requires |w.hist| > 0
  {
    match step
    case Stream(ev, _) =>
      && !ev.HistoryRewritten?
      && (ev.PartUpserted? ==> ev.part.messageId == owner(ev.part.id))
      && forall k :: k in Named(ev) ==> !Lost(w.gone, owner, k)
    case Query(t, page, limit) => t in w.tickets && w.tickets[t].Begun? && PageOf(page, Latest(w), limit)
    case TakeView(t) => t in w.tickets && w.tickets[t].Queried?
    case Commit(t) => t in w.tickets && w.tickets[t].Captured?
    case End(t, _) => t in w.tickets
    case Ingest(rows) => Forward(Latest(w), rows, w.gone, owner) && Owned(rows.parts, owner)
    case _ => true
  }

  // ---- the steps ----

  function Merge(c: Content, d: Content): Content { Content(c.msgs + d.msgs, c.parts + d.parts) }

  function Removals(ev: Event): (set<string>, set<string>) {
    match ev
    case MessageRemoved(id) => ({id}, {})
    case PartRemoved(_, id) => ({}, {id})
    case _ => ({}, {})
  }

  function KeysOf(ms: set<string>, ps: set<string>): set<RowKey> { (set id | id in ms :: M(id)) + (set p | p in ps :: P(p)) }

  function Forgetting(w: World, led: LedgerState, ms: set<string>, ps: set<string>): World {
    w.(led := led, owed := Less(w.owed, ms, ps), gone := w.gone + KeysOf(ms, ps))
  }

  function Streamed(w: World, ev: Event, now: int): World {
    var led := AfterEvent(w.led, ev, now);
    var (ms, ps) := Removals(ev);
    w.(led := led, owed := Merge(Less(w.owed, ms, ps), led.content), gone := w.gone + KeysOf(ms, ps),
       dead := w.dead + KeysOf(ms, ps))
  }

  function Committed(w: World, t: nat): World
    requires t in w.tickets && w.tickets[t].Captured?
  {
    var r := w.tickets[t];
    var x := Forgetting(w, AfterCommit(w.led, r.view, r.page), DropNow(w.led, r.view, r.page), OrphanNow(w.led, r.view, r.page));
    var now := ConfirmNow(w.led, r.view, r.page);
    x.(sec := map k | k in w.sec.Keys + now :: if k in now then r.version else w.sec[k],
       tickets := w.tickets[t := Composed(r.floor)])
  }

  function Do(w: World, step: Step): World
    requires |w.hist| > 0
  {
    match step
    case Stream(ev, now) => Streamed(w, ev, now)
    case Settle => w.(led := AfterSettle(w.led))
    case Begin => w.(led := AfterBegin(w.led), tickets := w.tickets[w.led.issued + 1 := Begun(|w.hist| - 1)])
    case Query(t, page, limit) =>
      if t in w.tickets && w.tickets[t].Begun?
      then w.(tickets := w.tickets[t := Queried(w.tickets[t].floor, |w.hist| - 1, page, limit)]) else w
    case TakeView(t) =>
      if t in w.tickets && w.tickets[t].Queried?
      then
        var r := w.tickets[t];
        w.(tickets := w.tickets[t := Captured(r.floor, r.version, r.page, r.limit, Capture(w.led, t))])
      else w
    case Commit(t) => if t in w.tickets && w.tickets[t].Captured? then Committed(w, t) else w
    case End(t, now) => w.(led := AfterEnd(w.led, t, now), tickets := w.tickets - {t})
    case Ingest(rows) => w.(hist := w.hist + [rows])
    case Evict(ms, ps) => Forgetting(w, w.led.(content := Less(w.led.content, ms, ps), settled := w.led.settled - ms), ms, ps)
  }

  // ---- what every step keeps ----

  /** The stored rows record everything of an owed entry. */
  ghost predicate Stored(h: Rows, owed: Content, k: RowKey)
    requires Holds(owed, k)
  {
    if k.M? then k.id in h.msgs && EndingCovered(owed.msgs[k.id].data, h.msgs[k.id].data)
    else
      var lp := owed.parts[k.id];
      var mid := lp.part.messageId;
      mid in h.msgs && (Completed(h.msgs[mid].data) || (k.id in h.parts && Lengths(lp, h.parts[k.id].data)))
  }

  ghost predicate Lengths(lp: LivePart, d: PartData) {
    forall f :: f in lp.fields ==> Units(lp.fields[f].b) <= Units(Have(d, f))
  }

  /** The ledger holds owed entries as they were built, each with a revision. */
  ghost predicate RowsValid(c: Content, rev: map<RowKey, nat>, removed: set<RowKey>, owed: Content, gone: set<RowKey>,
                            owner: string -> string) {
    && (forall k :: Holds(c, k) ==> SameRow(c, owed, k) && RevOf(rev, k) >= 1)
    && (forall k :: Holds(owed, k) ==> !Lost(gone, owner, k))
    && (forall p :: p in owed.parts ==> owed.parts[p].part.messageId == owner(p))
    && (forall p :: p in c.parts ==> c.parts[p].part.messageId == owner(p))
    && removed <= gone
  }

  ghost predicate OwedValid(w: World, owner: string -> string) {
    RowsValid(w.led.content, w.led.rev, w.led.removed.Keys, w.owed, w.gone, owner)
  }

  ghost predicate HistoryValid(hist: seq<Rows>, gone: set<RowKey>, owner: string -> string) {
    && |hist| > 0
    && (forall i, j :: 0 <= i < j < |hist| ==> Forward(hist[i], hist[j], gone, owner))
    && (forall i :: 0 <= i < |hist| ==> Owned(hist[i].parts, owner))
  }

  ghost predicate ReadValid(hist: seq<Rows>, r: Read) {
    && r.floor < |hist|
    && (r.Queried? || r.Captured? ==> r.floor <= r.version < |hist| && PageOf(r.page, hist[r.version], r.limit))
  }

  ghost predicate TicketsValid(open: set<nat>, issued: nat, confirmed: map<RowKey, nat>, hist: seq<Rows>, tickets: map<nat, Read>) {
    && open == tickets.Keys
    && (forall t :: t in tickets ==> t <= issued && ReadValid(hist, tickets[t]))
    && (forall k :: k in confirmed ==> confirmed[k] <= issued)
  }

  /** A read under ticket `t` leaves the entry to history. */
  predicate LeftTo(led: LedgerState, k: RowKey, t: nat) {
    !Holds(led.content, k) || (k in led.confirmed && led.confirmed[k] < t)
  }

  /** An owed entry left to history is stored by every read it is left to. */
  ghost predicate SecuredKey(w: World, k: RowKey)
    requires Holds(w.owed, k)
  {
    k in w.led.confirmed || !Holds(w.led.content, k) ==>
      && k in w.sec && w.sec[k] < |w.hist| && Stored(w.hist[w.sec[k]], w.owed, k)
      && forall t :: t in w.tickets && LeftTo(w.led, k, t) ==> w.sec[k] <= w.tickets[t].floor
  }

  ghost predicate Secured(w: World) { forall k :: Holds(w.owed, k) ==> SecuredKey(w, k) }

  /** What a read captured is what the ledger holds until its revision moves on. */
  ghost predicate Tracked(w: World, owner: string -> string, t: nat, v: LedgerView, k: RowKey) {
    Lost(w.gone, owner, k)
    || (&& Holds(w.led.content, k)
        && 1 <= RevOf(v.rev, k) <= RevOf(w.led.rev, k)
        && (k in w.led.confirmed ==> t <= w.led.confirmed[k])
        && (Same(w.led, v, k) ==> SameRow(w.led.content, v.content, k) && (k in v.confirmed ==> k in w.led.confirmed)))
  }

  ghost predicate ViewsValid(w: World, owner: string -> string) {
    forall t, k :: t in w.tickets && w.tickets[t].Captured? && Holds(w.tickets[t].view.content, k) ==>
      Tracked(w, owner, t, w.tickets[t].view, k)
  }

  ghost predicate Ticketed(w: World) { TicketsValid(w.led.open, w.led.issued, w.led.confirmed, w.hist, w.tickets) }

  ghost predicate Inv(w: World, owner: string -> string) {
    |w.hist| > 0 && OwedValid(w, owner) && HistoryValid(w.hist, w.gone, owner) && Ticketed(w) && Secured(w) && ViewsValid(w, owner)
  }

  // ---- history ----

  lemma ForwardTransitive(a: Rows, b: Rows, c: Rows, gone: set<RowKey>, owner: string -> string)
    requires Forward(a, b, gone, owner) && Forward(b, c, gone, owner)
    ensures Forward(a, c, gone, owner)
  {
  }

  /** What one version stores of an entry, every later version stores. */
  lemma StoredLater(h: Rows, g: Rows, owed: Content, k: RowKey, gone: set<RowKey>, owner: string -> string)
    requires Holds(owed, k) && Stored(h, owed, k) && Forward(h, g, gone, owner) && !Lost(gone, owner, k)
    requires k.P? ==> owed.parts[k.id].part.messageId == owner(k.id)
    ensures Stored(g, owed, k)
  {
  }

  lemma StoredAt(w: World, owner: string -> string, k: RowKey, i: nat, j: nat)
    requires HistoryValid(w.hist, w.gone, owner) && OwedValid(w, owner) && Holds(w.owed, k)
    requires i <= j < |w.hist| && Stored(w.hist[i], w.owed, k)
    ensures Stored(w.hist[j], w.owed, k)
  {
    if i < j {
      StoredLater(w.hist[i], w.hist[j], w.owed, k, w.gone, owner);
    }
  }

  // ---- the steps that change no content ----

  /** Steps that change no entry keep what secures and tracks it. */
  lemma Unmoved(w: World, x: World, owner: string -> string)
    requires Secured(w) && ViewsValid(w, owner) && OwedValid(w, owner) && Ticketed(w)
    requires x.led.content == w.led.content && x.led.confirmed == w.led.confirmed && x.led.rev == w.led.rev
    requires x.owed == w.owed && x.gone == w.gone && x.sec == w.sec && w.hist <= x.hist
    requires forall t :: t in x.tickets ==>
               if t in w.tickets then x.tickets[t].floor == w.tickets[t].floor else x.tickets[t].floor == |w.hist| - 1
    requires forall t :: t in x.tickets && x.tickets[t].Captured? ==>
               (t in w.tickets && w.tickets[t] == x.tickets[t]) || x.tickets[t].view == Capture(w.led, t)
    ensures Secured(x) && ViewsValid(x, owner)
  {
    hide Forward, PageOf, Stored, Lost;
    forall k | Holds(x.owed, k)
      ensures SecuredKey(x, k)
    {
      assert SecuredKey(w, k);
    }
    forall t, k | t in x.tickets && x.tickets[t].Captured? && Holds(x.tickets[t].view.content, k)
      ensures Tracked(x, owner, t, x.tickets[t].view, k)
    {
      if t in w.tickets && w.tickets[t] == x.tickets[t] {
        assert Tracked(w, owner, t, w.tickets[t].view, k);
      }
    }
  }

  lemma QuietMoves(w: World, step: Step, owner: string -> string)
    requires Inv(w, owner) && Legal(w, step, owner)
    requires step.Settle? || step.Begin? || step.Query? || step.TakeView?
    ensures Secured(Do(w, step)) && ViewsValid(Do(w, step), owner)
  {
    hide Forward, PageOf, Stored, Lost, Secured, ViewsValid, Capture, RowsValid, HistoryValid;
    Unmoved(w, Do(w, step), owner);
  }

  lemma QuietKeeps(w: World, owner: string -> string, step: Step)
    requires Inv(w, owner) && Legal(w, step, owner)
    requires step.Settle? || step.Begin? || step.Query? || step.TakeView?
    ensures Inv(Do(w, step), owner)
  {
    hide Forward, PageOf, Stored, Lost, Secured, ViewsValid, Capture, RowsValid, HistoryValid;
    QuietMoves(w, step, owner);
    assert Ticketed(Do(w, step));
  }

  lemma HistoryGrows(hist: seq<Rows>, rows: Rows, gone: set<RowKey>, owner: string -> string)
    requires HistoryValid(hist, gone, owner) && Forward(hist[|hist| - 1], rows, gone, owner) && Owned(rows.parts, owner)
    ensures HistoryValid(hist + [rows], gone, owner)
  {
    forall i | 0 <= i < |hist|
      ensures Forward(hist[i], rows, gone, owner)
    {
      if i < |hist| - 1 {
        ForwardTransitive(hist[i], hist[|hist| - 1], rows, gone, owner);
      }
    }
  }

  lemma IngestKeeps(w: World, owner: string -> string, rows: Rows)
    requires Inv(w, owner) && Legal(w, Ingest(rows), owner)
    ensures Inv(Do(w, Ingest(rows)), owner)
  {
    hide Forward, PageOf, Stored, Lost, Secured, ViewsValid, RowsValid, HistoryValid;
    HistoryGrows(w.hist, rows, w.gone, owner);
    Unmoved(w, Do(w, Ingest(rows)), owner);
  }

  // ---- the stream ----

  /** An event changes only the rows it names, and removes only those it removes. */
  lemma ApplyRow(c: Content, ev: Event, k: RowKey)
    requires k !in Named(ev)
    ensures var (ms, ps) := Removals(ev);
            && (Holds(Apply(c, ev), k) <==> Holds(Less(c, ms, ps), k))
            && (Holds(Apply(c, ev), k) ==> Holds(c, k) && SameRow(c, Apply(c, ev), k))
  {
  }

  /** An event gives the rows it names a new revision and takes their confirmation back. */
  lemma EventMarks(l: LedgerState, ev: Event, now: int, k: RowKey)
    requires !ev.HistoryRewritten?
    ensures var x := AfterEvent(l, ev, now);
            && x.content == Apply(l.content, ev)
            && x.open == l.open && x.issued == l.issued
            && RevOf(l.rev, k) + (if k in Named(ev) then 1 else 0) <= RevOf(x.rev, k)
            && (k in x.confirmed ==> k in l.confirmed && x.confirmed[k] == l.confirmed[k] && k !in Named(ev))
            && (k in x.removed ==> k in l.removed || k in KeysOf(Removals(ev).0, Removals(ev).1))
            && (k in l.confirmed && k !in x.confirmed ==> RevOf(l.rev, k) < RevOf(x.rev, k))
  {
  }

  lemma LessRow(c: Content, ms: set<string>, ps: set<string>, k: RowKey)
    ensures Holds(Less(c, ms, ps), k) ==> Holds(c, k) && SameRow(c, Less(c, ms, ps), k) && k !in KeysOf(ms, ps)
    ensures Holds(Less(c, ms, ps), k) && k.P? ==> c.parts[k.id].part.messageId !in ms
    ensures Holds(c, k) && !Holds(Less(c, ms, ps), k) ==>
              k in KeysOf(ms, ps) || (k.P? && c.parts[k.id].part.messageId in ms)
  {
  }

  lemma MergeRow(c: Content, d: Content, k: RowKey)
    ensures Holds(Merge(c, d), k) <==> Holds(c, k) || Holds(d, k)
    ensures Holds(d, k) ==> SameRow(d, Merge(c, d), k)
    ensures Holds(c, k) && !Holds(d, k) ==> SameRow(c, Merge(c, d), k)
  {
  }

  /** A part an event names belongs to its owner. */
  lemma NamedOwner(c: Content, ev: Event, k: RowKey, owner: string -> string)
    requires forall p :: p in c.parts ==> c.parts[p].part.messageId == owner(p)
    requires ev.PartUpserted? ==> ev.part.messageId == owner(ev.part.id)
    ensures Holds(Apply(c, ev), k) && k.P? ==> Apply(c, ev).parts[k.id].part.messageId == owner(k.id)
  {
  }

  lemma StreamOwed(w: World, owner: string -> string, ev: Event, now: int, k: RowKey)
    requires |w.hist| > 0 && OwedValid(w, owner) && Legal(w, Stream(ev, now), owner)
    ensures var x := Streamed(w, ev, now);
            && (Holds(x.led.content, k) ==> SameRow(x.led.content, x.owed, k) && RevOf(x.led.rev, k) >= 1)
            && (Holds(x.owed, k) ==> !Lost(x.gone, owner, k))
            && (Holds(x.owed, k) && k.P? ==> x.owed.parts[k.id].part.messageId == owner(k.id))
            && (k in x.led.removed ==> k in x.gone)
  {
    hide AfterEvent, Less, Merge, Apply, RevOf;
    var (ms, ps) := Removals(ev);
    EventMarks(w.led, ev, now, k);
    LessRow(w.owed, ms, ps, k);
    LessRow(w.led.content, ms, ps, k);
    MergeRow(Less(w.owed, ms, ps), Apply(w.led.content, ev), k);
    NamedOwner(w.led.content, ev, k, owner);
    if k !in Named(ev) {
      ApplyRow(w.led.content, ev, k);
    }
  }

  // ---- carrying what secures and tracks an entry over a step ----

  lemma SecuredCarry(w: World, x: World, k: RowKey)
    requires Holds(w.owed, k) && Holds(x.owed, k) && SameRow(w.owed, x.owed, k) && SecuredKey(w, k)
    requires w.hist <= x.hist && (k in w.sec ==> k in x.sec && x.sec[k] == w.sec[k])
    requires forall t :: t in x.tickets ==> t in w.tickets && x.tickets[t].floor == w.tickets[t].floor
    requires k in x.led.confirmed ==> k in w.led.confirmed && w.led.confirmed[k] == x.led.confirmed[k]
    requires !Holds(x.led.content, k) ==>
               !Holds(w.led.content, k) || (k in w.led.confirmed && forall t :: t in x.tickets ==> w.led.confirmed[k] < t)
    ensures SecuredKey(x, k)
  {
    if k in x.led.confirmed || !Holds(x.led.content, k) {
      forall t | t in x.tickets && LeftTo(x.led, k, t)
        ensures x.sec[k] <= x.tickets[t].floor
      {
        assert LeftTo(w.led, k, t);
      }
      assert w.hist[w.sec[k]] == x.hist[w.sec[k]];
    }
  }

  lemma TrackedCarry(w: World, x: World, owner: string -> string, t: nat, v: LedgerView, k: RowKey)
    requires Tracked(w, owner, t, v, k) && w.gone <= x.gone
    requires Lost(x.gone, owner, k)
             || (Holds(w.led.content, k) ==>
                   && Holds(x.led.content, k)
                   && RevOf(w.led.rev, k) <= RevOf(x.led.rev, k)
                   && (k in x.led.confirmed ==>
                         t <= x.led.confirmed[k] || (k in w.led.confirmed && w.led.confirmed[k] == x.led.confirmed[k]))
                   && (RevOf(w.led.rev, k) == RevOf(x.led.rev, k) ==>
                         && SameRow(w.led.content, x.led.content, k)
                         && (k in w.led.confirmed ==> k in x.led.confirmed)))
    ensures Tracked(x, owner, t, v, k)
  {
  }

  /** More rows may leave history once more of them are gone. */
  lemma HistoryLoosens(hist: seq<Rows>, gone: set<RowKey>, more: set<RowKey>, owner: string -> string)
    requires HistoryValid(hist, gone, owner) && gone <= more
    ensures HistoryValid(hist, more, owner)
  {
    forall i, j | 0 <= i < j < |hist|
      ensures Forward(hist[i], hist[j], more, owner)
    {
      assert Forward(hist[i], hist[j], gone, owner);
    }
  }

  lemma StreamSecured(w: World, owner: string -> string, ev: Event, now: int, k: RowKey)
    requires Inv(w, owner) && Legal(w, Stream(ev, now), owner) && Holds(Streamed(w, ev, now).owed, k)
    ensures SecuredKey(Streamed(w, ev, now), k)
  {
    hide AfterEvent, Less, Merge, Apply, RevOf, HistoryValid, Ticketed, ViewsValid, Stored, Lost;
    var x := Streamed(w, ev, now);
    var (ms, ps) := Removals(ev);
    EventMarks(w.led, ev, now, k);
    LessRow(w.owed, ms, ps, k);
    LessRow(w.led.content, ms, ps, k);
    MergeRow(Less(w.owed, ms, ps), Apply(w.led.content, ev), k);
    if k in x.led.confirmed || !Holds(x.led.content, k) {
      if k !in Named(ev) {
        ApplyRow(w.led.content, ev, k);
      } else if !Holds(x.led.content, k) {
        NamedHeld(w.led.content, ev, k);
      }
      SecuredCarry(w, x, k);
    }
  }

  lemma NamedHeld(c: Content, ev: Event, k: RowKey)
    requires k in Named(ev) && !Holds(Apply(c, ev), k)
    ensures !Holds(c, k)
  {
  }

  lemma StreamTracked(w: World, owner: string -> string, ev: Event, now: int, t: nat, v: LedgerView, k: RowKey)
    requires |w.hist| > 0 && OwedValid(w, owner) && Legal(w, Stream(ev, now), owner) && Tracked(w, owner, t, v, k)
    ensures Tracked(Streamed(w, ev, now), owner, t, v, k)
  {
    hide AfterEvent, Less, Merge, Apply, RevOf, Tracked;
    var x := Streamed(w, ev, now);
    var (ms, ps) := Removals(ev);
    EventMarks(w.led, ev, now, k);
    LessRow(w.led.content, ms, ps, k);
    if k !in Named(ev) {
      ApplyRow(w.led.content, ev, k);
    } else if !Holds(x.led.content, k) {
      NamedHeld(w.led.content, ev, k);
    }
    TrackedCarry(w, x, owner, t, v, k);
  }

  lemma StreamOwedKeeps(w: World, owner: string -> string, ev: Event, now: int)
    requires |w.hist| > 0 && OwedValid(w, owner) && Legal(w, Stream(ev, now), owner)
    ensures OwedValid(Streamed(w, ev, now), owner)
  {
    hide AfterEvent, Less, Merge, Apply, RevOf, Lost, Legal, Streamed;
    var x := Streamed(w, ev, now);
    forall k
      ensures (Holds(x.led.content, k) ==> SameRow(x.led.content, x.owed, k) && RevOf(x.led.rev, k) >= 1)
            && (Holds(x.owed, k) ==> !Lost(x.gone, owner, k))
            && (k in x.led.removed ==> k in x.gone)
    {
      StreamOwed(w, owner, ev, now, k);
    }
    forall p
      ensures p in x.owed.parts ==> x.owed.parts[p].part.messageId == owner(p)
      ensures p in x.led.content.parts ==> x.led.content.parts[p].part.messageId == owner(p)
    {
      StreamOwed(w, owner, ev, now, P(p));
      if p in x.led.content.parts {
        assert Holds(x.led.content, P(p));
      }
      if p in x.owed.parts {
        assert Holds(x.owed, P(p));
      }
    }
  }

  lemma StreamTicketed(w: World, ev: Event, now: int)
    requires Ticketed(w) && !ev.HistoryRewritten?
    ensures Ticketed(Streamed(w, ev, now))
  {
    hide AfterEvent, Less, Merge, Apply;
    var x := Streamed(w, ev, now);
    EventMarks(w.led, ev, now, M(""));
    forall k
      ensures (k in x.led.confirmed ==> k in w.led.confirmed && x.led.confirmed[k] == w.led.confirmed[k])
            && x.led.open == w.led.open && x.led.issued == w.led.issued
    {
      EventMarks(w.led, ev, now, k);
    }
  }

  lemma StreamKeeps(w: World, owner: string -> string, ev: Event, now: int)
    requires Inv(w, owner) && Legal(w, Stream(ev, now), owner)
    ensures Inv(Streamed(w, ev, now), owner)
  {
    assert !ev.HistoryRewritten?;
    hide AfterEvent, Less, Merge, Apply, RevOf, Tracked, SecuredKey, Lost, HistoryValid, Legal, OwedValid;
    var x := Streamed(w, ev, now);
    HistoryLoosens(w.hist, w.gone, x.gone, owner);
    StreamOwedKeeps(w, owner, ev, now);
    forall k | Holds(x.owed, k)
      ensures SecuredKey(x, k)
    {
      StreamSecured(w, owner, ev, now, k);
    }
    forall t, k | t in x.tickets && x.tickets[t].Captured? && Holds(x.tickets[t].view.content, k)
      ensures Tracked(x, owner, t, x.tickets[t].view, k)
    {
      StreamTracked(w, owner, ev, now, t, x.tickets[t].view, k);
    }
    StreamTicketed(w, ev, now);
  }

  // ---- forgetting: eviction, and what a commit drops ----

  ghost predicate Forgets(w: World, x: World, ms: set<string>, ps: set<string>) {
    && x.led.content == Less(w.led.content, ms, ps) && x.owed == Less(w.owed, ms, ps)
    && x.gone == w.gone + KeysOf(ms, ps)
    && x.led.rev == w.led.rev && x.led.removed.Keys == w.led.removed.Keys
    && x.led.open == w.led.open && x.led.issued == w.led.issued
    && x.hist == w.hist
  }

  lemma ForgetRow(w: World, x: World, ms: set<string>, ps: set<string>, owner: string -> string, k: RowKey)
    requires Forgets(w, x, ms, ps) && OwedValid(w, owner)
    ensures (Holds(x.led.content, k) ==> SameRow(x.led.content, x.owed, k) && SameRow(w.led.content, x.led.content, k)
                                         && RevOf(x.led.rev, k) >= 1)
    ensures Holds(x.owed, k) ==> !Lost(x.gone, owner, k) && SameRow(w.owed, x.owed, k)
    ensures Holds(x.owed, k) && Holds(w.led.content, k) ==> Holds(x.led.content, k)
    ensures Holds(w.led.content, k) && !Holds(x.led.content, k) ==> Lost(x.gone, owner, k)
  {
    LessRow(w.owed, ms, ps, k);
    LessRow(w.led.content, ms, ps, k);
    hide Less;
  }

  lemma ForgetOwed(w: World, x: World, ms: set<string>, ps: set<string>, owner: string -> string)
    requires Forgets(w, x, ms, ps) && OwedValid(w, owner)
    ensures OwedValid(x, owner)
  {
    hide Lost, RevOf;
    forall k
      ensures (Holds(x.led.content, k) ==> SameRow(x.led.content, x.owed, k) && RevOf(x.led.rev, k) >= 1)
            && (Holds(x.owed, k) ==> !Lost(x.gone, owner, k))
    {
      ForgetRow(w, x, ms, ps, owner, k);
    }
  }

  lemma EvictKeeps(w: World, owner: string -> string, ms: set<string>, ps: set<string>)
    requires Inv(w, owner)
    ensures Inv(Do(w, Evict(ms, ps)), owner)
  {
    hide Less, SecuredKey, Tracked, HistoryValid, Lost, RowsValid, RevOf;
    var x := Do(w, Evict(ms, ps));
    ForgetOwed(w, x, ms, ps, owner);
    HistoryLoosens(w.hist, w.gone, x.gone, owner);
    forall k | Holds(x.owed, k)
      ensures SecuredKey(x, k)
    {
      ForgetRow(w, x, ms, ps, owner, k);
      SecuredCarry(w, x, k);
    }
    forall u, k | u in x.tickets && x.tickets[u].Captured? && Holds(x.tickets[u].view.content, k)
      ensures Tracked(x, owner, u, x.tickets[u].view, k)
    {
      ForgetRow(w, x, ms, ps, owner, k);
      TrackedCarry(w, x, owner, u, x.tickets[u].view, k);
    }
  }

  // ---- committing a composed read ----

  /** What a read confirms, the history it queried stores. */
  lemma ConfirmedStored(v: LedgerView, d: Rows, h: Rows, limit: nat, owner: string -> string, k: RowKey)
    requires PageOf(d, h, limit) && Owned(h.parts, owner)
    requires k in ConfirmedKeys(v, d) && k !in v.confirmed
    requires k.P? && k.id in v.content.parts ==> v.content.parts[k.id].part.messageId == owner(k.id)
    ensures Holds(v.content, k) && Stored(h, v.content, k)
  {
    hide PendingMsgs, DroppedMsgs, OrphanParts;
    if k.P? {
      assert k.id in ConfirmedParts(v, d);
      assert PartStored(v, d, k.id);
    } else {
      assert k.id in ConfirmedMsgs(v, d);
    }
  }

  lemma CommitSecured(w: World, owner: string -> string, t: nat, k: RowKey)
    requires Inv(w, owner) && t in w.tickets && w.tickets[t].Captured? && Holds(Committed(w, t).owed, k)
    ensures SecuredKey(Committed(w, t), k)
  {
    hide Less, Forward, PageOf, RevOf, ConfirmedKeys, DropNow, OrphanNow, Stored, Lost, Secured;
    var r, x := w.tickets[t], Committed(w, t);
    ForgetRow(w, x, DropNow(w.led, r.view, r.page), OrphanNow(w.led, r.view, r.page), owner, k);
    assert SecuredKey(w, k) by { assert Secured(w); SecuredAt(w, k); }
    if k in ConfirmNow(w.led, r.view, r.page) {
      ConfirmNowStored(w, owner, t, k);
      StoredSame(w.hist[r.version], w.owed, x.owed, k);
      assert Holds(x.led.content, k) && x.led.confirmed[k] == w.led.issued;
      assert forall u :: u in x.tickets ==> !LeftTo(x.led, k, u);
    } else {
      SecuredCarry(w, x, k);
    }
  }

  lemma SecuredAt(w: World, k: RowKey)
    requires Secured(w) && Holds(w.owed, k)
    ensures SecuredKey(w, k)
  {
  }

  lemma StoredSame(h: Rows, c: Content, d: Content, k: RowKey)
    requires Holds(c, k) && Stored(h, c, k) && SameRow(c, d, k)
    ensures Stored(h, d, k)
  {
  }

  lemma ConfirmNowStored(w: World, owner: string -> string, t: nat, k: RowKey)
    requires Inv(w, owner) && t in w.tickets && w.tickets[t].Captured? && Holds(w.owed, k)
    requires k in ConfirmNow(w.led, w.tickets[t].view, w.tickets[t].page)
    ensures Holds(w.led.content, k) && Stored(w.hist[w.tickets[t].version], w.owed, k)
  {
    hide Secured, SecuredKey, Forward, PendingMsgs, DroppedMsgs, OrphanParts, Stored, PageOf, RevOf;
    var r := w.tickets[t];
    assert Holds(r.view.content, k) by {
      if k.P? { assert k.id in ConfirmedParts(r.view, r.page); } else { assert k.id in ConfirmedMsgs(r.view, r.page); }
    }
    assert Tracked(w, owner, t, r.view, k);
    assert SameRow(w.led.content, r.view.content, k) && SameRow(w.led.content, w.owed, k);
    ConfirmedStored(r.view, r.page, w.hist[r.version], r.limit, owner, k);
    StoredSame(w.hist[r.version], r.view.content, w.owed, k);
  }

  lemma CommitKeeps(w: World, owner: string -> string, t: nat)
    requires Inv(w, owner) && t in w.tickets && w.tickets[t].Captured?
    ensures Inv(Committed(w, t), owner)
  {
    hide Less, SecuredKey, Tracked, HistoryValid, Lost, RowsValid, RevOf, ConfirmedKeys, DropNow, OrphanNow, ClearsNow, PageOf;
    var r, x := w.tickets[t], Committed(w, t);
    var ms, ps := DropNow(w.led, r.view, r.page), OrphanNow(w.led, r.view, r.page);
    ForgetOwed(w, x, ms, ps, owner);
    HistoryLoosens(w.hist, w.gone, x.gone, owner);
    forall k | Holds(x.owed, k)
      ensures SecuredKey(x, k)
    {
      CommitSecured(w, owner, t, k);
    }
    forall u, k | u in x.tickets && x.tickets[u].Captured? && Holds(x.tickets[u].view.content, k)
      ensures Tracked(x, owner, u, x.tickets[u].view, k)
    {
      ForgetRow(w, x, ms, ps, owner, k);
      TrackedCarry(w, x, owner, u, x.tickets[u].view, k);
    }
  }

  /** A commit that drops nothing. */
  lemma CommitKeepsAll(w: World, t: nat)
    requires t in w.tickets && w.tickets[t].Captured?
    requires var r := w.tickets[t]; DropNow(w.led, r.view, r.page) == {} && OrphanNow(w.led, r.view, r.page) == {}
    ensures var r := w.tickets[t];
            Committed(w, t) == w.(led := AfterCommit(w.led, r.view, r.page), tickets := w.tickets[t := Composed(r.floor)],
                                  sec := map k | k in w.sec.Keys + ConfirmNow(w.led, r.view, r.page) ::
                                           if k in ConfirmNow(w.led, r.view, r.page) then r.version else w.sec[k])
  {
    hide DropNow, OrphanNow, ConfirmNow, AfterCommit, ClearsNow;
    assert Less(w.owed, {}, {}) == w.owed;
    assert KeysOf({}, {}) == {};
  }

  // ---- ending a read ----

  lemma PurgeRow(l: LedgerState, now: int, k: RowKey)
    ensures var x := AfterPurge(l, now);
            && (Holds(x.content, k) <==> Holds(l.content, k) && k !in Purged(l))
            && (Holds(x.content, k) ==> SameRow(l.content, x.content, k) && RevOf(x.rev, k) == RevOf(l.rev, k))
            && (k in x.confirmed <==> k in l.confirmed && k !in Purged(l))
            && (k in x.confirmed ==> x.confirmed[k] == l.confirmed[k])
            && (k in x.removed ==> k in l.removed)
            && x.open == l.open && x.issued == l.issued
  {
  }

  lemma EndKeeps(w: World, owner: string -> string, t: nat, now: int)
    requires Inv(w, owner) && t in w.tickets
    ensures Inv(Do(w, End(t, now)), owner)
  {
    hide SecuredKey, Tracked, HistoryValid, Lost, RevOf, AfterPurge, PageOf;
    var x := Do(w, End(t, now));
    var l := w.led.(open := w.led.open - {t});
    forall k
      ensures (Holds(x.led.content, k) ==> SameRow(x.led.content, x.owed, k) && RevOf(x.led.rev, k) >= 1)
            && (k in x.led.removed ==> k in w.led.removed)
            && (k in x.led.confirmed ==> k in w.led.confirmed && x.led.confirmed[k] == w.led.confirmed[k])
            && (Holds(x.owed, k) ==> SecuredKey(x, k))
    {
      PurgeRow(l, now, k);
      if Holds(x.owed, k) {
        SecuredCarry(w, x, k);
      }
    }
    forall p
      ensures p in x.led.content.parts ==> x.led.content.parts[p].part.messageId == owner(p)
    {
      PurgeRow(l, now, P(p));
      assert p in x.led.content.parts ==> Holds(x.led.content, P(p));
    }
    assert Ticketed(x) by {
      PurgeRow(l, now, P(""));
    }
    forall u, k | u in x.tickets && x.tickets[u].Captured? && Holds(x.tickets[u].view.content, k)
      ensures Tracked(x, owner, u, x.tickets[u].view, k)
    {
      EndTracked(w, owner, t, now, u, x.tickets[u].view, k);
    }
  }

  lemma EndTracked(w: World, owner: string -> string, t: nat, now: int, u: nat, v: LedgerView, k: RowKey)
    requires t in w.tickets && u in w.tickets && u != t && w.led.open == w.tickets.Keys && |w.hist| > 0
    requires Tracked(w, owner, u, v, k)
    ensures Tracked(Do(w, End(t, now)), owner, u, v, k)
  {
    hide AfterPurge, Lost, RevOf;
    var l := w.led.(open := w.led.open - {t});
    PurgeRow(l, now, k);
    if !Lost(w.gone, owner, k) {
      assert u in l.open;
      assert k !in Purged(l);
      TrackedCarry(w, Do(w, End(t, now)), owner, u, v, k);
    }
  }

  // ---- runs ----

  lemma DoKeeps(w: World, step: Step, owner: string -> string)
    requires Inv(w, owner) && Legal(w, step, owner)
    ensures Inv(Do(w, step), owner)
  {
    hide Inv;
    match step {
      case Stream(ev, now) => StreamKeeps(w, owner, ev, now);
      case Commit(t) => CommitKeeps(w, owner, t);
      case End(t, now) => EndKeeps(w, owner, t, now);
      case Ingest(rows) => IngestKeeps(w, owner, rows);
      case Evict(ms, ps) => EvictKeeps(w, owner, ms, ps);
      case _ => QuietKeeps(w, owner, step);
    }
  }

  ghost predicate LegalRun(w: World, steps: seq<Step>, owner: string -> string)
    decreases |steps|
  {
    && |w.hist| > 0
    && (steps == [] || (Legal(w, steps[0], owner) && LegalRun(Do(w, steps[0]), steps[1..], owner)))
  }

  ghost function Run(w: World, steps: seq<Step>, owner: string -> string): World
    requires LegalRun(w, steps, owner)
    decreases |steps|
  {
    if steps == [] then w else Run(Do(w, steps[0]), steps[1..], owner)
  }

  lemma {:induction false} RunKeeps(w: World, steps: seq<Step>, owner: string -> string)
    requires Inv(w, owner) && LegalRun(w, steps, owner)
    ensures Inv(Run(w, steps, owner), owner)
    decreases |steps|
  {
    if steps != [] {
      DoKeeps(w, steps[0], owner);
      RunKeeps(Do(w, steps[0]), steps[1..], owner);
    }
  }

  lemma HistoryStays(w: World, step: Step)
    requires |w.hist| > 0
    ensures w.hist <= Do(w, step).hist
  {
  }

  /** The first step of a run and the rest of it. */
  lemma RunsStep(w: World, step: Step, rest: seq<Step>, x: World, owner: string -> string)
    requires |w.hist| > 0 && Legal(w, step, owner) && Do(w, step) == x && (rest == [] || LegalRun(x, rest, owner))
    ensures |x.hist| > 0 && LegalRun(x, rest, owner) && LegalRun(w, [step] + rest, owner)
    ensures Run(w, [step] + rest, owner) == Run(x, rest, owner)
    ensures rest == [] ==> Run(x, rest, owner) == x
  {
    HistoryStays(w, step);
    hide Do, Legal;
    assert ([step] + rest)[1..] == rest;
  }

  lemma {:induction false} RunsOn(w: World, steps: seq<Step>, more: seq<Step>, owner: string -> string)
    requires LegalRun(w, steps, owner) && LegalRun(Run(w, steps, owner), more, owner)
    ensures LegalRun(w, steps + more, owner) && Run(w, steps + more, owner) == Run(Run(w, steps, owner), more, owner)
    decreases |steps|
  {
    hide Do, Legal;
    if steps == [] {
      assert steps + more == more;
    } else {
      assert (steps + more)[1..] == steps[1..] + more && (steps + more)[0] == steps[0];
      RunsOn(Do(w, steps[0]), steps[1..], more, owner);
    }
  }

  /** A read that begins now and queries everything stored. */
  function NextRead(w: World): World
    requires |w.hist| > 0
  {
    Do(Do(w, Begin), Query(w.led.issued + 1, WholePage(Latest(w)), 0))
  }

  lemma NextReadView(w: World)
    requires |w.hist| > 0
    ensures var z, u := NextRead(w), w.led.issued + 1;
            && u in z.tickets && z.tickets[u] == Queried(|w.hist| - 1, |w.hist| - 1, WholePage(Latest(w)), 0)
            && z.hist == w.hist && Capture(z.led, u) == Capture(w.led, u)
  {
    CaptureBegun(w.led, w.led.issued + 1);
    hide WholePage, Capture, Latest;
  }

  lemma CaptureBegun(l: LedgerState, t: nat)
    ensures Capture(AfterBegin(l), t) == Capture(l, t)
  {
  }

  lemma NextReadLegal(w: World, owner: string -> string)
    requires |w.hist| > 0
    ensures Legal(w, Begin, owner) && |Do(w, Begin).hist| > 0
    ensures Legal(Do(w, Begin), Query(w.led.issued + 1, WholePage(Latest(w)), 0), owner)
  {
    hide PageOf;
  }

  lemma NewWorldValid(rows: Rows, owner: string -> string)
    requires Owned(rows.parts, owner)
    ensures Inv(NewWorld(rows), owner)
  {
  }

  // ---- what a composed read holds ----

  /**
   A streamed message is in the composed read with every ending streamed, unless it lies
   outside the page or history moved past its ended turn without it.
   */
  ghost predicate MessageShown(owed: Content, v: LedgerView, d: Rows, h: Rows, limit: nat, id: string)
    requires id in owed.msgs
  {
    var r := Compose(v, d, limit);
    || (id in r.msgs && EndingCovered(owed.msgs[id].data, r.msgs[id].data))
    || (id in h.msgs && id !in d.msgs)
    || BeforePage(WithoutRemoved(v, d), limit, owed.msgs[id].timeCreated)
    || id in DroppedMsgs(v, d)
  }

  /**
   A streamed part whose message is shown has every field at least as long as it was
   built, unless its stored message is completed or lies outside the page.
   */
  ghost predicate PartShown(owed: Content, v: LedgerView, d: Rows, h: Rows, limit: nat, p: string)
    requires p in owed.parts
  {
    var r, mid := Compose(v, d, limit), owed.parts[p].part.messageId;
    mid in r.msgs && (mid in h.msgs ==> mid in d.msgs) ==>
      CompletedIn(d, mid) || (p in r.parts && Lengths(owed.parts[p], r.parts[p].data))
  }

  lemma RenderedLengths(lp: LivePart, d: PartData)
    ensures Lengths(lp, WithFields(d, Values(lp.fields)))
  {
    forall f | f in lp.fields
      ensures Units(lp.fields[f].b) <= Units(Have(WithFields(d, Values(lp.fields)), f))
    {
      RenderKeeps(d, Values(lp.fields), f);
    }
  }

  lemma OverlayLengths(lp: LivePart, stored: Option<Part>)
    ensures Lengths(lp, OverlayPart(lp, stored).data)
  {
    hide WithFields, Lengths;
    RenderedLengths(lp, lp.part.data);
    if stored.Some? {
      RenderedLengths(lp, stored.value.data);
    }
  }

  /** An entry a read does not capture is stored by the history it queried. */
  lemma LeftStored(w: World, owner: string -> string, t: nat, k: RowKey)
    requires Inv(w, owner) && t in w.tickets && w.tickets[t].Queried? && Holds(w.owed, k) && LeftTo(w.led, k, t)
    ensures Stored(w.hist[w.tickets[t].version], w.owed, k)
  {
    hide Forward, Stored, PageOf, Lost;
    assert SecuredKey(w, k);
    StoredAt(w, owner, k, w.sec[k], w.tickets[t].version);
  }

  lemma MessageComposed(owed: Content, v: LedgerView, d: Rows, h: Rows, limit: nat, id: string)
    requires id in owed.msgs && M(id) !in v.removed && PageOf(d, h, limit)
    requires if id in v.content.msgs then v.content.msgs[id] == owed.msgs[id] else Stored(h, owed, M(id))
    ensures MessageShown(owed, v, d, h, limit, id)
  {
    hide DroppedMsgs, OverlayParts, BeforePage, PageOf;
    assert id in d.msgs ==> id in h.msgs && d.msgs[id] == h.msgs[id] by { PageMessage(d, h, limit, id); }
    assert id in d.msgs ==> id in WithoutRemoved(v, d).msgs;
  }

  lemma PageMessage(d: Rows, h: Rows, limit: nat, id: string)
    requires PageOf(d, h, limit)
    ensures id in d.msgs ==> id in h.msgs && d.msgs[id] == h.msgs[id]
  {
  }

  lemma PartComposed(owed: Content, v: LedgerView, d: Rows, h: Rows, limit: nat, owner: string -> string, p: string)
    requires p in owed.parts && PageOf(d, h, limit) && Owned(h.parts, owner)
    requires owed.parts[p].part.messageId == owner(p) && P(p) !in v.removed && M(owner(p)) !in v.removed
    requires if p in v.content.parts then v.content.parts[p] == owed.parts[p] else Stored(h, owed, P(p))
    ensures PartShown(owed, v, d, h, limit, p)
  {
    OverlayLengths(owed.parts[p], StoredPart(WithoutRemoved(v, d), p));
    hide DroppedMsgs, OverlayMsgs, Lengths, OverlayPart;
  }

  /** What a read captures of an owed row, or leaves to history that stores it. */
  lemma CapturedOrStored(w: World, owner: string -> string, t: nat, k: RowKey)
    requires Inv(w, owner) && t in w.tickets && w.tickets[t].Queried? && Holds(w.owed, k)
    ensures var v, h := Capture(w.led, t), w.hist[w.tickets[t].version];
            && (if Holds(v.content, k) then SameRow(v.content, w.owed, k) else Stored(h, w.owed, k))
            && k !in v.removed && !Lost(w.gone, owner, k)
  {
    if LeftTo(w.led, k, t) {
      LeftStored(w, owner, t, k);
    } else {
      assert Holds(w.led.content, k) && SameRow(w.led.content, w.owed, k);
    }
    hide Secured, HistoryValid, TicketsValid, ViewsValid, Stored;
  }

  lemma MessageHeld(w: World, owner: string -> string, t: nat, id: string)
    requires Inv(w, owner) && t in w.tickets && w.tickets[t].Queried? && id in w.owed.msgs
    ensures var r := w.tickets[t];
            MessageShown(w.owed, Capture(w.led, t), r.page, w.hist[r.version], r.limit, id)
  {
    hide MessageShown, Capture, PageOf, Stored, OwedValid, HistoryValid, Secured, ViewsValid;
    CapturedOrStored(w, owner, t, M(id));
    var r := w.tickets[t];
    MessageComposed(w.owed, Capture(w.led, t), r.page, w.hist[r.version], r.limit, id);
  }

  lemma PartHeld(w: World, owner: string -> string, t: nat, p: string)
    requires Inv(w, owner) && t in w.tickets && w.tickets[t].Queried? && p in w.owed.parts
    ensures var r := w.tickets[t];
            PartShown(w.owed, Capture(w.led, t), r.page, w.hist[r.version], r.limit, p)
  {
    hide PartShown, PageOf, Stored, Secured, ViewsValid;
    var r, v := w.tickets[t], Capture(w.led, t);
    CapturedOrStored(w, owner, t, P(p));
    assert M(owner(p)) !in w.gone;
    hide Capture;
    PartComposed(w.owed, v, r.page, w.hist[r.version], r.limit, owner, p);
  }

  /**
   In every interleaving of the stream, reads and ingestion, a read composed when it is
   captured holds everything the ledger took from the stream and that is not gone.
   */
  lemma OwedShown(rows: Rows, steps: seq<Step>, owner: string -> string, t: nat)
    requires Owned(rows.parts, owner) && LegalRun(NewWorld(rows), steps, owner)
    requires t in Run(NewWorld(rows), steps, owner).tickets && Run(NewWorld(rows), steps, owner).tickets[t].Queried?
    ensures var w := Run(NewWorld(rows), steps, owner);
            var r, v := w.tickets[t], Capture(w.led, t);
            && r.version < |w.hist|
            && (forall id :: id in w.owed.msgs ==> MessageShown(w.owed, v, r.page, w.hist[r.version], r.limit, id))
            && (forall p :: p in w.owed.parts ==> PartShown(w.owed, v, r.page, w.hist[r.version], r.limit, p))
  {
    hide MessageShown, PartShown, OwedValid, HistoryValid, Secured, ViewsValid, Capture;
    var w := Run(NewWorld(rows), steps, owner);
    NewWorldValid(rows, owner);
    RunKeeps(NewWorld(rows), steps, owner);
    forall id | id in w.owed.msgs
      ensures MessageShown(w.owed, Capture(w.led, t), w.tickets[t].page, w.hist[w.tickets[t].version], w.tickets[t].limit, id)
    {
      MessageHeld(w, owner, t, id);
    }
    forall p | p in w.owed.parts
      ensures PartShown(w.owed, Capture(w.led, t), w.tickets[t].page, w.hist[w.tickets[t].version], w.tickets[t].limit, p)
    {
      PartHeld(w, owner, t, p);
    }
  }

  // ---- what is owed ----

  /** What an event makes of the ledger's part, if it has one to change. */
  function TakenPart(c: Content, ev: Event): Option<LivePart>
    requires ev.PartUpserted? || ev.PartDelta?
  {
    if ev.PartUpserted? then Some(UpsertPart(PartOf(c.parts, ev.part.id), ev.part, ev.final))
    else if ev.partId in c.parts then Some(DeltaPart(c.parts[ev.partId], ev.field, ev.offset, ev.text)) else None
  }

  /**
   What the ledger takes is owed as it was taken, and stays so, unchanged until an event
   names it, unless it is removed, evicted or forgotten.
   */
  lemma StreamedIsOwed(w: World, step: Step, owner: string -> string)
    requires Inv(w, owner) && Legal(w, step, owner)
    ensures var x := Do(w, step);
            && (step.Stream? && step.ev.MessageUpserted? ==>
                  step.ev.message.id in x.owed.msgs && x.owed.msgs[step.ev.message.id] == step.ev.message)
            && (step.Stream? && (step.ev.PartUpserted? || step.ev.PartDelta?) && TakenPart(w.led.content, step.ev).Some? ==>
                  var p := if step.ev.PartUpserted? then step.ev.part.id else step.ev.partId;
                  p in x.owed.parts && x.owed.parts[p] == TakenPart(w.led.content, step.ev).value)
    ensures var x := Do(w, step);
            forall k :: Holds(w.owed, k) ==>
              || Lost(x.gone, owner, k)
              || (Holds(x.owed, k) && (SameRow(w.owed, x.owed, k) || (step.Stream? && k in Named(step.ev))))
  {
    var x := Do(w, step);
    forall k | Holds(w.owed, k)
      ensures || Lost(x.gone, owner, k)
              || (Holds(x.owed, k) && (SameRow(w.owed, x.owed, k) || (step.Stream? && k in Named(step.ev))))
    {
      OwedStays(w, step, owner, k);
    }
  }

  lemma OwedStays(w: World, step: Step, owner: string -> string, k: RowKey)
    requires Inv(w, owner) && Legal(w, step, owner) && Holds(w.owed, k)
    ensures var x := Do(w, step);
            || Lost(x.gone, owner, k)
            || (Holds(x.owed, k) && (SameRow(w.owed, x.owed, k) || (step.Stream? && k in Named(step.ev))))
  {
    hide Less, Merge, Apply, HistoryValid, Secured, ViewsValid, TicketsValid, PageOf, Forward, DropNow, OrphanNow, ConfirmNow;
    match step
    case Stream(ev, now) =>
      LessRow(w.owed, Removals(ev).0, Removals(ev).1, k);
      LessRow(w.led.content, Removals(ev).0, Removals(ev).1, k);
      MergeRow(Less(w.owed, Removals(ev).0, Removals(ev).1), Apply(w.led.content, ev), k);
      EventMarks(w.led, ev, now, k);
      if k !in Named(ev) {
        ApplyRow(w.led.content, ev, k);
      }
    case Commit(t) =>
      var r := w.tickets[t];
      LessRow(w.owed, DropNow(w.led, r.view, r.page), OrphanNow(w.led, r.view, r.page), k);
    case Evict(ms, ps) => LessRow(w.owed, ms, ps, k);
    case _ =>
  }
}

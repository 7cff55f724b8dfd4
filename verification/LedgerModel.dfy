/**
 The content a session's stream delivered that stored history has not confirmed yet, and
 the reads that lay it over history, as functions of the state each locked step starts from.
 */
module LedgerModel {
  import opened Events
  import opened Utf16
  import opened StreamContent

  const LEDGER_TTL: int := 600_000
  const MIN_TIME: int := -0x4000_0000_0000_0000

  /** A message or a part. */
  datatype RowKey = M(id: string) | P(id: string)

  /** `cleared` is 0 while a read still found the removed row in history. */
  datatype Tombstone = Tombstone(at: int, cleared: nat)

  datatype LedgerState = LedgerState(
    content: Content,
    settled: set<string>,
    confirmed: map<RowKey, nat>,
    removed: map<RowKey, Tombstone>,
    rev: map<RowKey, nat>,
    issued: nat,
    open: set<nat>,
    touched: int)

  /** Stored rows: all of history at one moment, or one page of it. */
  datatype Rows = Rows(msgs: map<string, Message>, parts: map<string, Part>)

  // ---- content by row ----

  predicate Holds(c: Content, k: RowKey) { if k.M? then k.id in c.msgs else k.id in c.parts }

  predicate SameRow(c: Content, d: Content, k: RowKey) {
    if k.M? then k.id in c.msgs && k.id in d.msgs && c.msgs[k.id] == d.msgs[k.id]
    else k.id in c.parts && k.id in d.parts && c.parts[k.id] == d.parts[k.id]
  }

  /** The content without some messages, their parts and some further parts. */
  function Less(c: Content, ms: set<string>, ps: set<string>): Content {
    Content(c.msgs - ms,
            map p | p in c.parts && p !in ps && c.parts[p].part.messageId !in ms :: c.parts[p])
  }

  function RevOf(rev: map<RowKey, nat>, k: RowKey): nat { if k in rev then rev[k] else 0 }

  // ---- what the stream does ----

  function Bumped(rev: map<RowKey, nat>, ks: set<RowKey>): map<RowKey, nat> {
    rev + (map k | k in ks :: RevOf(rev, k) + 1)
  }

  /** New content: earlier confirmations and tombstones no longer describe it. */
  function Changed(l: LedgerState, ks: set<RowKey>): LedgerState {
    l.(confirmed := l.confirmed - ks, removed := l.removed - ks, rev := Bumped(l.rev, ks))
  }

  function Tomb(l: LedgerState, k: RowKey, now: int): LedgerState {
    l.(removed := l.removed[k := Tombstone(now, 0)])
  }

  function AfterEvent(l: LedgerState, ev: Event, now: int): LedgerState {
    var applied := l.(content := Apply(l.content, ev), touched := now);
    match ev
    case PartDelta(p, _, _, _) => Changed(applied, {P(p)})
    case PartUpserted(p, _) =>
      Changed(applied.(settled := l.settled - {p.messageId}), {P(p.id), M(p.messageId)})
    case MessageUpserted(m) => Changed(applied.(settled := l.settled - {m.id}), {M(m.id)})
    case MessageRemoved(id) => Tomb(Changed(applied.(settled := l.settled - {id}), {M(id)}), M(id), now)
    case PartRemoved(_, id) => Tomb(Changed(applied, {P(id)}), P(id), now)
    case HistoryRewritten(_) => applied.(content := Less(l.content, l.settled, {}), settled := {})
    case _ => l
  }

  /** Marks everything held as ended. */
  function AfterSettle(l: LedgerState): LedgerState {
    l.(settled := l.settled + l.content.msgs.Keys + (set p | p in l.content.parts :: l.content.parts[p].part.messageId))
  }

  // ---- reads ----

  function AfterBegin(l: LedgerState): LedgerState {
    l.(issued := l.issued + 1, open := l.open + {l.issued + 1})
  }

  /** Issued before every read still open. */
  predicate BeforeOpen(l: LedgerState, ticket: nat) {
    ticket <= l.issued && forall t :: t in l.open ==> ticket < t
  }

  function Purged(l: LedgerState): set<RowKey> {
    set k | k in l.confirmed && BeforeOpen(l, l.confirmed[k])
  }

  predicate TombSpent(l: LedgerState, t: Tombstone, now: int) {
    if t.cleared != 0 then BeforeOpen(l, t.cleared) else now - t.at > LEDGER_TTL
  }

  predicate Forgettable(l: LedgerState, k: RowKey) {
    && k !in l.removed
    && !Holds(l.content, k)
    && (k.M? ==> forall p :: p in l.content.parts ==> l.content.parts[p].part.messageId != k.id)
  }

  /** Drops confirmed entries and spent tombstones, and the revisions of entries that are gone. */
  function AfterPurge(l: LedgerState, now: int): LedgerState {
    var gone := Purged(l);
    var ms := set k | k in gone && k.M? :: k.id;
    var ps := set k | k in gone && k.P? :: k.id;
    var kept := l.(confirmed := l.confirmed - gone,
                   content := Content(l.content.msgs - ms, l.content.parts - ps),
                   settled := l.settled - ms,
                   removed := map k | k in l.removed && !TombSpent(l, l.removed[k], now) :: l.removed[k]);
    kept.(rev := map k | k in l.rev && !Forgettable(kept, k) :: l.rev[k])
  }

  function AfterEnd(l: LedgerState, ticket: nat, now: int): LedgerState {
    AfterPurge(l.(open := l.open - {ticket}), now)
  }

  /** What composing one read needs of the ledger. */
  datatype LedgerView = LedgerView(
    content: Content,
    settled: set<string>,
    confirmed: set<RowKey>,
    removed: map<RowKey, bool>,   // true filters this read's rows
    rev: map<RowKey, nat>)

  /** Confirmed before the read was issued: history's already. */
  predicate Known(l: LedgerState, ticket: nat, k: RowKey) { k in l.confirmed && l.confirmed[k] < ticket }

  function Capture(l: LedgerState, ticket: nat): LedgerView {
    LedgerView(
      Content(map id | id in l.content.msgs && !Known(l, ticket, M(id)) :: l.content.msgs[id],
              map id | id in l.content.parts && !Known(l, ticket, P(id)) :: l.content.parts[id]),
      l.settled,
      l.confirmed.Keys,
      map k | k in l.removed :: l.removed[k].cleared == 0 || ticket <= l.removed[k].cleared,
      l.rev)
  }

  // ---- endings ----

  predicate Ended(d: MessageData) { d.MessageData? && (d.finish != "" || d.failed) }

  predicate TimeRecorded(d: MessageData) { d.MessageData? && d.completed != 0 }

  predicate Completed(d: MessageData) { d.MessageData? && (d.finish != "" || d.completed != 0) }

  /** The stored row records every ending the live one carries. */
  predicate EndingCovered(live: MessageData, stored: MessageData) {
    (Ended(live) ==> Ended(stored)) && (TimeRecorded(live) ==> TimeRecorded(stored))
  }

  // ---- composing ----

  /** Every streamed field is at least as long, and a final part's status is the same. */
  predicate Covers(lp: LivePart, stored: PartData) {
    && (forall f :: f in lp.fields ==> Units(lp.fields[f].b) <= Units(Have(stored, f)))
    && (lp.final ==> stored.status == lp.part.data.status)
  }

  /** A stored message the ledger does not hold is newer. */
  predicate MovedPast(v: LedgerView, d: Rows, time: int) {
    time < MIN_TIME || exists id :: id in d.msgs && id !in v.content.msgs && time < d.msgs[id].timeCreated
  }

  /** Ended messages missing from a read that stores later ones. */
  function DroppedMsgs(v: LedgerView, d: Rows): set<string> {
    set id | id in v.content.msgs && id !in d.msgs && id in v.settled && MovedPast(v, d, v.content.msgs[id].timeCreated)
  }

  /** Ended parts with no message on either side. */
  function OrphanParts(v: LedgerView, d: Rows): set<string> {
    set p | p in v.content.parts && var mid := v.content.parts[p].part.messageId;
      mid !in DroppedMsgs(v, d) && mid !in v.content.msgs && mid !in d.msgs && mid in v.settled
  }

  /** A completed stored message owns its parts; any other part is compared. */
  predicate PartStored(v: LedgerView, d: Rows, p: string)
    requires p in v.content.parts
  {
    var mid := v.content.parts[p].part.messageId;
    || P(p) in v.confirmed
    || (mid in d.msgs && Completed(d.msgs[mid].data))
    || (p in d.parts && Covers(v.content.parts[p], d.parts[p].data))
  }

  predicate Judged(v: LedgerView, d: Rows, p: string)
    requires p in v.content.parts
  {
    v.content.parts[p].part.messageId !in DroppedMsgs(v, d) && p !in OrphanParts(v, d)
  }

  function ConfirmedParts(v: LedgerView, d: Rows): set<string> {
    set p | p in v.content.parts && Judged(v, d, p) && v.content.parts[p].part.messageId in v.settled && PartStored(v, d, p)
  }

  /** Messages with a part that is running or not stored yet. */
  function PendingMsgs(v: LedgerView, d: Rows): set<string> {
    set p | p in v.content.parts && Judged(v, d, p) && p !in ConfirmedParts(v, d) :: v.content.parts[p].part.messageId
  }

  function ConfirmedMsgs(v: LedgerView, d: Rows): set<string> {
    set id | id in v.content.msgs && id in d.msgs && id in v.settled && id !in PendingMsgs(v, d)
             && EndingCovered(v.content.msgs[id].data, d.msgs[id].data)
  }

  predicate RowIn(d: Rows, k: RowKey) { if k.M? then k.id in d.msgs else k.id in d.parts }

  /** Tombstones whose rows the read no longer holds. */
  function ClearedKeys(v: LedgerView, d: Rows): set<RowKey> {
    set k | k in v.removed && !RowIn(d, k)
  }

  predicate Filtered(v: LedgerView, k: RowKey) { k in v.removed && v.removed[k] }

  function WithoutRemoved(v: LedgerView, d: Rows): Rows {
    Rows(map id | id in d.msgs && !Filtered(v, M(id)) :: d.msgs[id],
         map p | p in d.parts && !Filtered(v, P(p)) && !Filtered(v, M(d.parts[p].messageId)) :: d.parts[p])
  }

  /** The page is full and starts at a later time. */
  predicate BeforePage(d: Rows, limit: nat, time: int) {
    if limit > 0 && |d.msgs| >= limit then forall id :: id in d.msgs ==> time < d.msgs[id].timeCreated
    else time < MIN_TIME
  }

  /** The read's messages: stored ones, those history lacks in the page's range, and fuller endings. */
  function OverlayMsgs(v: LedgerView, d: Rows, limit: nat, dropped: set<string>): map<string, Message> {
    map id | id in d.msgs.Keys + v.content.msgs.Keys && (id in d.msgs || (id !in dropped && !BeforePage(d, limit, v.content.msgs[id].timeCreated))) ::
      if id in d.msgs && (id in v.content.msgs && id !in dropped ==> EndingCovered(v.content.msgs[id].data, d.msgs[id].data))
      then d.msgs[id] else v.content.msgs[id]
  }

  function OverlayPart(lp: LivePart, stored: Option<Part>): Part {
    if stored.None? || (lp.final && !Covers(lp, stored.value.data)) then Render(lp)
    else stored.value.(data := WithFields(stored.value.data, Values(lp.fields)))
  }

  function StoredPart(d: Rows, p: string): Option<Part> { if p in d.parts then Some(d.parts[p]) else None }

  /** The read's parts: a streamed one where its message is shown, with its fields at least as long as built. */
  function OverlayParts(v: LedgerView, d: Rows, shown: map<string, Message>): map<string, Part> {
    map p | p in d.parts.Keys + v.content.parts.Keys && (p in d.parts || v.content.parts[p].part.messageId in shown) ::
      if p in v.content.parts then OverlayPart(v.content.parts[p], StoredPart(d, p)) else d.parts[p]
  }

  function Overlay(v: LedgerView, d: Rows, limit: nat, dropped: set<string>): Rows {
    var msgs := OverlayMsgs(v, d, limit, dropped);
    Rows(msgs, OverlayParts(v, d, msgs))
  }

  function Compose(v: LedgerView, d: Rows, limit: nat): Rows {
    Overlay(v, WithoutRemoved(v, d), limit, DroppedMsgs(v, d))
  }

  // ---- committing ----

  predicate Same(l: LedgerState, v: LedgerView, k: RowKey) { RevOf(l.rev, k) == RevOf(v.rev, k) }

  function DropNow(l: LedgerState, v: LedgerView, d: Rows): set<string> {
    set id | id in DroppedMsgs(v, d) && Same(l, v, M(id)) && id in l.settled
  }

  function OrphanNow(l: LedgerState, v: LedgerView, d: Rows): set<string> {
    set p | p in OrphanParts(v, d) && Same(l, v, P(p))
  }

  function ConfirmedKeys(v: LedgerView, d: Rows): set<RowKey> {
    (set p | p in ConfirmedParts(v, d) :: P(p)) + (set id | id in ConfirmedMsgs(v, d) :: M(id))
  }

  function ConfirmNow(l: LedgerState, v: LedgerView, d: Rows): set<RowKey> {
    set k | k in ConfirmedKeys(v, d) && k !in l.confirmed && Same(l, v, k)
  }

  predicate ClearsNow(l: LedgerState, v: LedgerView, d: Rows, k: RowKey) {
    k in ClearedKeys(v, d) && k in l.removed && l.removed[k].cleared == 0 && Same(l, v, k)
  }

  /** Applies a composed read's decisions to the entries it saw unchanged. */
  function AfterCommit(l: LedgerState, v: LedgerView, d: Rows): LedgerState {
    l.(content := Less(l.content, DropNow(l, v, d), OrphanNow(l, v, d)),
       settled := l.settled - DropNow(l, v, d),
       confirmed := l.confirmed + (map k | k in ConfirmNow(l, v, d) :: l.issued),
       removed := map k | k in l.removed :: if ClearsNow(l, v, d, k) then l.removed[k].(cleared := l.issued) else l.removed[k])
  }
}

/**
 What each step makes of the ledger, row by row: what it marks, confirms, forgets and filters,
 and that a read that finds everything stored leaves nothing ended behind.
 */
module LedgerEffects {
  import opened Events
  import opened Utf16
  import opened StreamContent
  import opened LedgerModel
  import opened ComposedRows

  // ---- the stream ----

  /** The rows an event tells something new about. */
  function Touched(ev: Event): set<RowKey> {
    match ev
    case PartDelta(p, _, _, _) => {P(p)}
    case PartUpserted(p, _) => {P(p.id), M(p.messageId)}
    case MessageUpserted(m) => {M(m.id)}
    case MessageRemoved(id) => {M(id)}
    case PartRemoved(_, id) => {P(id)}
    case _ => {}
  }

  /** The row an event removes. */
  function Removes(ev: Event): Option<RowKey> {
    match ev
    case MessageRemoved(id) => Some(M(id))
    case PartRemoved(_, id) => Some(P(id))
    case _ => None
  }

  /**
   A content event changes its rows' content; each row it names gets a new revision and loses
   its confirmation and its tombstone, a removal buries its row, and a message with new content
   runs again.
   */
  lemma EventLedger(l: LedgerState, ev: Event, now: int, k: RowKey)
    requires Touched(ev) != {}
    ensures var m := AfterEvent(l, ev, now);
            && m.content == Apply(l.content, ev) && m.touched == now && m.issued == l.issued && m.open == l.open
            && RevOf(m.rev, k) == RevOf(l.rev, k) + (if k in Touched(ev) then 1 else 0)
            && (k in m.confirmed <==> k in l.confirmed && k !in Touched(ev))
            && (k in m.confirmed ==> m.confirmed[k] == l.confirmed[k])
            && (k in m.removed <==> Removes(ev) == Some(k) || (k in l.removed && k !in Touched(ev)))
            && (k in m.removed ==> m.removed[k] == if Removes(ev) == Some(k) then Tombstone(now, 0) else l.removed[k])
            && (k.M? ==> (k.id in m.settled <==> k.id in l.settled && k !in Touched(ev)))
  {
    hide Apply;
  }

  /** A rewrite takes the ended content away and leaves a running turn's; other events change nothing. */
  lemma OtherEvents(l: LedgerState, ev: Event, now: int, k: RowKey)
    requires Touched(ev) == {}
    ensures var m := AfterEvent(l, ev, now);
            && (!ev.HistoryRewritten? ==> m == l)
            && (ev.HistoryRewritten? ==>
                  && m == l.(content := m.content, settled := {}, touched := now)
                  && (Holds(m.content, k) <==> Holds(l.content, k) && (if k.M? then k.id else l.content.parts[k.id].part.messageId) !in l.settled)
                  && (Holds(m.content, k) ==> SameRow(m.content, l.content, k)))
  {
  }

  /** The end of a turn settles every message held or of a part held, and nothing else. */
  lemma SettledAll(l: LedgerState, id: string)
    ensures var m := AfterSettle(l);
            && m == l.(settled := m.settled)
            && (id in m.settled <==>
                  id in l.settled || id in l.content.msgs || exists p :: p in l.content.parts && l.content.parts[p].part.messageId == id)
  {
  }

  // ---- reads ----

  /** No read is open that was issued by the ticket. */
  predicate NoneSince(l: LedgerState, ticket: nat) { ticket <= l.issued && forall t :: t in l.open ==> ticket < t }

  /**
   The end of a read gives up each row confirmed before every read still open, and each tombstone
   that was cleared before them or is more than ten minutes old; revisions of rows that are gone
   go too, and nothing else changes.
   */
  lemma EndLedger(l: LedgerState, ticket: nat, now: int, k: RowKey)
    ensures var o, m := l.(open := l.open - {ticket}), AfterEnd(l, ticket, now);
            var purged := k in l.confirmed && NoneSince(o, l.confirmed[k]);
            && m.open == o.open && m.issued == l.issued && m.touched == l.touched
            && (k in m.confirmed <==> k in l.confirmed && !purged) && (k in m.confirmed ==> m.confirmed[k] == l.confirmed[k])
            && (Holds(m.content, k) <==> Holds(l.content, k) && !purged) && (Holds(m.content, k) ==> SameRow(m.content, l.content, k))
            && (k.M? ==> (k.id in m.settled <==> k.id in l.settled && !purged))
            && (k in m.removed <==>
                  k in l.removed && if l.removed[k].cleared == 0 then now - l.removed[k].at <= 600_000 else !NoneSince(o, l.removed[k].cleared))
            && (k in m.removed ==> m.removed[k] == l.removed[k])
            && (k in m.rev <==>
                  k in l.rev && (k in m.removed || Holds(m.content, k)
                                 || (k.M? && exists p :: p in m.content.parts && m.content.parts[p].part.messageId == k.id)))
            && (k in m.rev ==> m.rev[k] == l.rev[k])
  {
    var o := l.(open := l.open - {ticket});
    PurgedIs(o, k);
    EndRows(l, ticket, now, k);
  }

  lemma PurgedIs(o: LedgerState, k: RowKey)
    ensures k in Purged(o) <==> k in o.confirmed && NoneSince(o, o.confirmed[k])
  {
  }

  lemma EndRows(l: LedgerState, ticket: nat, now: int, k: RowKey)
    ensures var o, m := l.(open := l.open - {ticket}), AfterEnd(l, ticket, now);
            && (Holds(m.content, k) <==> Holds(l.content, k) && k !in Purged(o)) && (Holds(m.content, k) ==> SameRow(m.content, l.content, k))
            && (k.M? ==> (k.id in m.settled <==> k.id in l.settled && k !in Purged(o)))
  {
    hide Purged, Forgettable, TombSpent;
    assert k == if k.M? then M(k.id) else P(k.id);
  }

  /** A read is issued the next ticket, and is open until it ends. */
  lemma BeginLedger(l: LedgerState)
    ensures AfterBegin(l) == l.(issued := l.issued + 1, open := l.open + {l.issued + 1})
  {
  }

  /**
   A read captures every row but those confirmed before it was issued, and filters each removed
   row unless its tombstone was cleared before.
   */
  lemma CapturedRows(l: LedgerState, ticket: nat, k: RowKey)
    ensures var v := Capture(l, ticket);
            && (Holds(v.content, k) <==> Holds(l.content, k) && !(k in l.confirmed && l.confirmed[k] < ticket))
            && (Holds(v.content, k) ==> SameRow(v.content, l.content, k))
            && v.settled == l.settled && v.confirmed == l.confirmed.Keys && v.rev == l.rev
            && (k in v.removed <==> k in l.removed)
            && (k in v.removed ==> (v.removed[k] <==> !(0 < l.removed[k].cleared < ticket)))
  {
  }

  // ---- what a read decides ----

  /** A stored row holds every streamed field as long, and the status a final part was streamed with. */
  predicate StoredFully(lp: LivePart, stored: Part) {
    && (forall f :: f in lp.fields ==> Units(lp.fields[f].b) <= Units(Have(stored.data, f)))
    && (lp.final ==> stored.data.status == lp.part.data.status)
  }

  /** The message is stored as finished. */
  predicate StoredDone(d: Rows, id: string) {
    id in d.msgs && d.msgs[id].data.MessageData? && (d.msgs[id].data.finish != "" || d.msgs[id].data.completed != 0)
  }

  /** An ended part of a message that is shown somewhere: history has it. */
  predicate PartDone(v: LedgerView, d: Rows, p: string)
    requires p in v.content.parts
  {
    var mid := v.content.parts[p].part.messageId;
    && mid in v.settled && !Outdated(v, d, mid) && (mid in v.content.msgs || mid in d.msgs)
    && (P(p) in v.confirmed || StoredDone(d, mid) || (p in d.parts && StoredFully(v.content.parts[p], d.parts[p])))
  }

  /**
   Exactly what a read confirms: an ended part that history has, and an ended message it stores
   with its endings once all its parts captured are confirmed.
   */
  lemma ConfirmedRows(v: LedgerView, d: Rows, k: RowKey)
    ensures k in ConfirmedKeys(v, d) <==>
              if k.P? then k.id in v.content.parts && PartDone(v, d, k.id)
              else
                && k.id in v.content.msgs && k.id in d.msgs && k.id in v.settled
                && !FullerEnding(v.content.msgs[k.id].data, d.msgs[k.id].data)
                && forall p :: p in v.content.parts && v.content.parts[p].part.messageId == k.id ==> PartDone(v, d, p)
  {
    forall p | p in v.content.parts
      ensures p in ConfirmedParts(v, d) <==> PartDone(v, d, p)
    {
      PartDecided(v, d, p);
    }
    if k.P? {
      hide ConfirmedParts, PartDone, ConfirmedMsgs;
    } else if k.id in v.content.msgs && k.id in d.msgs && k.id in v.settled {
      EndingFuller(v.content.msgs[k.id].data, d.msgs[k.id].data);
      PendingIs(v, d, k.id);
      hide ConfirmedParts, PartDone, EndingCovered, FullerEnding, PendingMsgs;
    }
  }

  /** A message waits exactly while a part of it does. */
  lemma PendingIs(v: LedgerView, d: Rows, id: string)
    requires id in v.content.msgs && id in d.msgs
    ensures id in PendingMsgs(v, d) <==>
              exists p :: p in v.content.parts && v.content.parts[p].part.messageId == id && p !in ConfirmedParts(v, d)
  {
    hide ConfirmedParts;
    assert id !in DroppedMsgs(v, d);
    forall p | p in v.content.parts && v.content.parts[p].part.messageId == id
      ensures Judged(v, d, p)
    {
    }
  }

  lemma PartDecided(v: LedgerView, d: Rows, p: string)
    requires p in v.content.parts
    ensures p in ConfirmedParts(v, d) <==> PartDone(v, d, p)
  {
    var mid := v.content.parts[p].part.messageId;
    DroppedIs(v, d, mid);
    hide DroppedMsgs, Outdated;
  }

  lemma DroppedIs(v: LedgerView, d: Rows, id: string)
    ensures id in DroppedMsgs(v, d) <==> Outdated(v, d, id)
  {
  }

  /** What a read makes of the rows that did not change since it captured them. */
  lemma CommitLedger(l: LedgerState, v: LedgerView, d: Rows, k: RowKey)
    ensures var m := AfterCommit(l, v, d);
            var same := RevOf(l.rev, k) == RevOf(v.rev, k);
            && m.rev == l.rev && m.issued == l.issued && m.open == l.open && m.touched == l.touched
            && (k in m.confirmed <==> k in l.confirmed || (k in ConfirmedKeys(v, d) && same))
            && (k in m.confirmed ==> m.confirmed[k] == if k in l.confirmed then l.confirmed[k] else l.issued)
            && (k in m.removed <==> k in l.removed)
            && (k in m.removed ==>
                  var hides := k in v.removed && (if k.M? then k.id !in d.msgs else k.id !in d.parts);
                  m.removed[k] == Tombstone(l.removed[k].at, if l.removed[k].cleared == 0 && hides && same then l.issued else l.removed[k].cleared))
            && (k.M? ==>
                  var drops := Outdated(v, d, k.id) && same && k.id in l.settled;
                  && (k.id in m.settled <==> k.id in l.settled && !drops)
                  && (k.id in m.content.msgs <==> k.id in l.content.msgs && !drops))
            && (Holds(m.content, k) ==> SameRow(m.content, l.content, k))
  {
    hide ConfirmedKeys, OrphanParts;
    if k.M? {
      DroppedIs(v, d, k.id);
    }
    hide DroppedMsgs, Outdated;
  }

  /** A part leaves with its dropped message, or when it has none on either side and ended. */
  lemma CommitParts(l: LedgerState, v: LedgerView, d: Rows, p: string)
    requires p in l.content.parts
    ensures var m, mid := AfterCommit(l, v, d), l.content.parts[p].part.messageId;
            p in m.content.parts <==>
              && !(Outdated(v, d, mid) && RevOf(l.rev, M(mid)) == RevOf(v.rev, M(mid)) && mid in l.settled)
              && !(p in v.content.parts && RevOf(l.rev, P(p)) == RevOf(v.rev, P(p))
                   && var of := v.content.parts[p].part.messageId;
                      of in v.settled && of !in v.content.msgs && of !in d.msgs)
  {
    DroppedIs(v, d, l.content.parts[p].part.messageId);
    if p in v.content.parts {
      DroppedIs(v, d, v.content.parts[p].part.messageId);
    }
    hide DroppedMsgs, ConfirmedKeys;
  }

  // ---- nothing is kept for ever ----

  /** The message a row belongs to. */
  function MessageOf(c: Content, k: RowKey): string
    requires Holds(c, k)
  {
    if k.M? then k.id else c.parts[k.id].part.messageId
  }

  /** The page stores everything held of ended messages. */
  ghost predicate StoresEnded(l: LedgerState, d: Rows) {
    && (forall id :: id in l.content.msgs && id in l.settled ==>
          id in d.msgs && !FullerEnding(l.content.msgs[id].data, d.msgs[id].data))
    && (forall p :: p in l.content.parts && l.content.parts[p].part.messageId in l.settled ==>
          var mid := l.content.parts[p].part.messageId;
          mid in d.msgs && (StoredDone(d, mid) || (p in d.parts && StoredFully(l.content.parts[p], d.parts[p]))))
  }

  /** A read alone, from its ticket to its end. */
  function ReadAlone(l: LedgerState, d: Rows, now: int): LedgerState {
    var b := AfterBegin(l);
    AfterEnd(AfterCommit(b, Capture(b, b.issued), d), b.issued, now)
  }

  /** A read of a page that stores all ended content, with no other read open, leaves none of it behind. */
  lemma EndedLeaves(l: LedgerState, d: Rows, now: int, k: RowKey)
    requires l.open == {} && (forall j :: j in l.confirmed ==> l.confirmed[j] <= l.issued) && StoresEnded(l, d)
    ensures var e := ReadAlone(l, d, now); Holds(e.content, k) ==> Holds(l.content, k) && MessageOf(l.content, k) !in l.settled
  {
    var b := AfterBegin(l);
    var v := Capture(b, b.issued);
    var m := AfterCommit(b, v, d);
    CommitLedger(b, v, d, k);
    EndLedger(m, b.issued, now, k);
    if Holds(l.content, k) && MessageOf(l.content, k) in l.settled {
      EndedConfirmed(l, d, k);
      assert k in m.confirmed && m.confirmed[k] <= m.issued;
    }
  }

  lemma EndedConfirmed(l: LedgerState, d: Rows, k: RowKey)
    requires StoresEnded(l, d) && (forall j :: j in l.confirmed ==> l.confirmed[j] <= l.issued)
    requires Holds(l.content, k) && MessageOf(l.content, k) in l.settled
    ensures var b := AfterBegin(l); k in l.confirmed || k in ConfirmedKeys(Capture(b, b.issued), d)
  {
    var b := AfterBegin(l);
    var v := Capture(b, b.issued);
    if k !in l.confirmed {
      CapturedRows(b, b.issued, k);
      ConfirmedRows(v, d, k);
      forall p | p in v.content.parts && v.content.parts[p].part.messageId in l.settled
        ensures PartDone(v, d, p)
      {
        CapturedRows(b, b.issued, P(p));
      }
      hide ConfirmedKeys, PartDone;
    }
  }
}

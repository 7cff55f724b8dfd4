/** The ledger object: each locked operation in place, tied to its function of the state. */
module Ledger {
  import opened Events
  import opened StreamContent
  import opened LedgerModel

  const MAX_PARTS: nat := 2048
  const MAX_MESSAGES: nat := 512

  /** What a read decided about the captured entries, with the revision it saw. */
  datatype Plan = Plan(
    confirmed: map<RowKey, nat>,
    dropped: map<string, nat>,
    cleared: map<RowKey, nat>,
    orphans: map<string, nat>)

  function PlanOf(v: LedgerView, d: Rows): Plan {
    Plan(Revs(v, ConfirmedKeys(v, d)), MsgRevs(v, DroppedMsgs(v, d)), Revs(v, ClearedKeys(v, d)), PartRevs(v, OrphanParts(v, d)))
  }

  function Revs(v: LedgerView, ks: set<RowKey>): map<RowKey, nat> { map k | k in ks :: RevOf(v.rev, k) }

  function MsgRevs(v: LedgerView, ids: set<string>): map<string, nat> { map id | id in ids :: RevOf(v.rev, M(id)) }

  function PartRevs(v: LedgerView, ps: set<string>): map<string, nat> { map p | p in ps :: RevOf(v.rev, P(p)) }

  // ---- evicting beyond the counts ----

  /** Drops the oldest settled parts while there are too many. */
  function EvictParts(c: Content, settled: set<string>, order: seq<string>): Content
    decreases |order|
  {
    if order == [] || |c.parts| <= MAX_PARTS then c
    else
      var p := order[0];
      EvictParts(if p in c.parts && c.parts[p].part.messageId in settled then AfterRemovePart(c, p) else c, settled, order[1..])
  }

  /** Drops the oldest settled messages, with their parts, while there are too many. */
  function EvictMsgs(c: Content, settled: set<string>, order: seq<string>): (Content, set<string>)
    decreases |order|
  {
    if order == [] || |c.msgs| <= MAX_MESSAGES then (c, settled)
    else
      var id := order[0];
      if id in settled then EvictMsgs(AfterRemoveMessage(c, id), settled - {id}, order[1..])
      else EvictMsgs(c, settled, order[1..])
  }

  function Evicted(l: LedgerState, partOrder: seq<string>, msgOrder: seq<string>): LedgerState {
    var c := EvictParts(l.content, l.settled, partOrder);
    var (d, settled) := EvictMsgs(c, l.settled, msgOrder);
    l.(content := d, settled := settled)
  }

  /** Only settled parts are evicted, and only as many as it takes. */
  lemma {:induction false} EvictPartsBound(c: Content, settled: set<string>, order: seq<string>)
    ensures var r := EvictParts(c, settled, order);
            && r.msgs == c.msgs
            && (forall p :: p in r.parts ==> p in c.parts && r.parts[p] == c.parts[p])
            && (forall p :: p in c.parts && p !in r.parts ==> p in order && c.parts[p].part.messageId in settled)
            && (|r.parts| < |c.parts| ==> |r.parts| >= MAX_PARTS)
            && (|r.parts| > MAX_PARTS ==> forall p :: p in r.parts && p in order ==> r.parts[p].part.messageId !in settled)
    decreases |order|
  {
    if order != [] && |c.parts| > MAX_PARTS {
      var p := order[0];
      var next := if p in c.parts && c.parts[p].part.messageId in settled then AfterRemovePart(c, p) else c;
      if p in c.parts {
        assert next.parts == c.parts || next.parts == c.parts - {p};
        assert |c.parts - {p}| == |c.parts| - 1 by { assert c.parts == (c.parts - {p})[p := c.parts[p]]; }
      }
      EvictPartsBound(next, settled, order[1..]);
    }
  }

  /** The oldest settled parts go, up to the first place at which 2048 are left. */
  lemma {:induction false} EvictPartsOldest(c: Content, settled: set<string>, order: seq<string>) returns (n: nat)
    ensures n <= |order| && (n < |order| ==> |EvictParts(c, settled, order).parts| <= 2048)
    ensures forall p :: p in EvictParts(c, settled, order).parts <==>
              p in c.parts && !(p in order[..n] && c.parts[p].part.messageId in settled)
    ensures |c.parts| <= 2048 ==> n == 0
    decreases |order|
  {
    if order == [] || |c.parts| <= MAX_PARTS {
      n := 0;
    } else {
      var p := order[0];
      var next := if p in c.parts && c.parts[p].part.messageId in settled then AfterRemovePart(c, p) else c;
      assert forall q :: q in next.parts ==> q in c.parts && next.parts[q] == c.parts[q];
      assert forall q :: q in c.parts && (q != p || c.parts[q].part.messageId !in settled) ==> q in next.parts;
      hide AfterRemovePart;
      var k := EvictPartsOldest(next, settled, order[1..]);
      n := k + 1;
      FirstNext(order, k);
    }
  }

  lemma FirstNext(order: seq<string>, k: nat)
    requires k < |order|
    ensures forall q :: q in order[..k + 1] <==> q == order[0] || q in order[1..][..k]
  {
    assert order[..k + 1] == [order[0]] + order[1..][..k];
  }

  /** Of the messages, the oldest settled ones go, up to the first place at which 512 are left. */
  lemma {:induction false} EvictMsgsOldest(c: Content, settled: set<string>, order: seq<string>) returns (n: nat)
    requires forall i, j :: 0 <= i < j < |order| ==> order[i] != order[j]
    ensures var (r, left) := EvictMsgs(c, settled, order);
            && n <= |order| && (n < |order| ==> |r.msgs| <= 512) && (|c.msgs| <= 512 ==> n == 0)
            && (forall id :: id in r.msgs <==> id in c.msgs && !(id in order[..n] && id in settled))
            && forall id :: id in left <==> id in settled && id !in order[..n]
    decreases |order|
  {
    if order == [] || |c.msgs| <= MAX_MESSAGES {
      n := 0;
    } else {
      var id, rest := order[0], order[1..];
      assert forall i :: 0 <= i < |rest| ==> rest[i] == order[i + 1];
      assert id !in rest;
      var k: nat;
      MessageLess(c, id);
      hide AfterRemoveMessage;
      if id in settled {
        k := EvictMsgsOldest(AfterRemoveMessage(c, id), settled - {id}, rest);
        assert id !in rest[..k];
      } else {
        k := EvictMsgsOldest(c, settled, rest);
      }
      n := k + 1;
      FirstNext(order, k);
    }
  }

  lemma MessageLess(c: Content, id: string)
    ensures var d := AfterRemoveMessage(c, id);
            && (forall m :: m in d.msgs <==> m in c.msgs && m != id)
            && (forall p :: p in d.parts <==> p in c.parts && c.parts[p].part.messageId != id)
            && (forall p :: p in d.parts ==> d.parts[p] == c.parts[p]) && |d.msgs| <= |c.msgs|
  {
    MapLess(c.msgs, id);
  }

  lemma MapLess(m: map<string, Message>, id: string)
    ensures |m - {id}| <= |m|
  {
    if id in m {
      assert m == (m - {id})[id := m[id]];
    } else {
      assert m - {id} == m;
    }
  }

  /** What is evicted of the messages is forgotten whole. */
  lemma {:induction false} EvictMsgsForgets(c: Content, settled: set<string>, order: seq<string>) returns (ms: set<string>)
    ensures var (r, left) := EvictMsgs(c, settled, order);
            r == Less(c, ms, {}) && ms <= settled && left == settled - ms && forall id :: id in ms ==> id in order
    decreases |order|
  {
    hide AfterRemoveMessage, Less;
    ms := {};
    if order != [] && |c.msgs| > MAX_MESSAGES {
      var id := order[0];
      if id in settled {
        var rest := EvictMsgsForgets(AfterRemoveMessage(c, id), settled - {id}, order[1..]);
        ms := rest + {id};
        LessAgain(c, {}, rest, id);
      } else {
        ms := EvictMsgsForgets(c, settled, order[1..]);
      }
    } else {
      LessNothing(c);
    }
  }

  /** Keeping the counts forgets whole messages and settled parts, and nothing else. */
  lemma EvictedForgets(l: LedgerState, partOrder: seq<string>, msgOrder: seq<string>)
    returns (ms: set<string>, ps: set<string>)
    ensures Evicted(l, partOrder, msgOrder) == l.(content := Less(l.content, ms, ps), settled := l.settled - ms)
    ensures ms <= l.settled && forall p :: p in ps ==> p in l.content.parts && l.content.parts[p].part.messageId in l.settled
  {
    hide EvictParts, EvictMsgs, Less;
    var c := EvictParts(l.content, l.settled, partOrder);
    EvictPartsBound(l.content, l.settled, partOrder);
    ps := l.content.parts.Keys - c.parts.Keys;
    LessParts(l.content, c, ps);
    ms := EvictMsgsForgets(c, l.settled, msgOrder);
    LessBoth(l.content, ms, ps);
  }

  lemma LessParts(c: Content, d: Content, ps: set<string>)
    requires d.msgs == c.msgs && (forall p :: p in d.parts ==> p in c.parts && d.parts[p] == c.parts[p])
    requires ps == c.parts.Keys - d.parts.Keys
    ensures d == Less(c, {}, ps)
  {
    assert d.msgs == c.msgs - {};
    assert d.parts == Less(c, {}, ps).parts;
  }

  lemma LessBoth(c: Content, ms: set<string>, ps: set<string>)
    ensures Less(Less(c, {}, ps), ms, {}) == Less(c, ms, ps)
  {
    assert (c.msgs - {}) - ms == c.msgs - ms;
    assert Less(Less(c, {}, ps), ms, {}).parts == Less(c, ms, ps).parts;
  }

  lemma LessNothing(c: Content)
    ensures Less(c, {}, {}) == c
  {
  }

  /** Removing one more message, before or after the others. */
  lemma LessAgain(c: Content, ms: set<string>, more: set<string>, id: string)
    ensures AfterRemoveMessage(Less(c, ms, {}), id) == Less(c, ms + {id}, {})
    ensures Less(AfterRemoveMessage(c, id), more, {}) == Less(c, more + {id}, {})
  {
  }

  /** The earliest ticket still open, or the next one. */
  ghost predicate Oldest(l: LedgerState, oldest: nat) {
    && oldest <= l.issued + 1
    && (forall t :: t in l.open ==> oldest <= t)
    && (oldest == l.issued + 1 || oldest in l.open)
  }

  lemma OldestBound(l: LedgerState, oldest: nat, at: nat)
    requires Oldest(l, oldest)
    ensures BeforeOpen(l, at) <==> at < oldest
  {
  }

  /** The tombstones left out depend on the open reads alone. */
  lemma SpentSame(l: LedgerState, m: LedgerState, now: int)
    requires m.open == l.open && m.issued == l.issued && m.removed == l.removed
    ensures (map k | k in m.removed && !TombSpent(m, m.removed[k], now) :: m.removed[k])
         == (map k | k in l.removed && !TombSpent(l, l.removed[k], now) :: l.removed[k])
  {
    assert forall at :: BeforeOpen(m, at) <==> BeforeOpen(l, at);
  }

  function Listing(order: seq<string>, id: string): seq<string> { if id in order then order else order + [id] }

  function PartOrder(order: seq<string>, ev: Event): seq<string> {
    if ev.PartUpserted? then Listing(order, ev.part.id) else order
  }

  function MsgOrder(order: seq<string>, ev: Event): seq<string> {
    if ev.MessageUpserted? then Listing(order, ev.message.id) else order
  }

  lemma ChangedTwice(l: LedgerState, a: RowKey, b: RowKey)
    requires a != b
    ensures Changed(Changed(l, {a}), {b}) == Changed(l, {a, b})
  {
    BumpedTwice(l.rev, a, b);
    hide Bumped;
    assert l.confirmed - {a} - {b} == l.confirmed - {a, b};
    assert l.removed - {a} - {b} == l.removed - {a, b};
  }

  lemma BumpedTwice(rev: map<RowKey, nat>, a: RowKey, b: RowKey)
    requires a != b
    ensures Bumped(Bumped(rev, {a}), {b}) == Bumped(rev, {a, b})
  {
  }

  // ---- the object ----

  lemma OtherEvents(l: LedgerState, ev: Event, now: int)
    requires !ev.PartDelta? && !ev.PartUpserted? && !ev.MessageUpserted? && !ev.MessageRemoved? && !ev.PartRemoved?
    requires !ev.HistoryRewritten?
    ensures AfterEvent(l, ev, now) == l
  {
  }

  class Ledger {
    const content: Inflight
    var settled: set<string>
    var confirmed: map<RowKey, nat>
    var removed: map<RowKey, Tombstone>
    var rev: map<RowKey, nat>
    var issued: nat
    var open: set<nat>
    var touched: int

    ghost function View(): LedgerState
      reads this, content
    {
      LedgerState(content.View(), settled, confirmed, removed, rev, issued, open, touched)
    }

    constructor (now: int)
      ensures content.Valid() && fresh(content)
      ensures View() == LedgerState(EMPTY, {}, map[], map[], map[], 0, {}, now)
    {
      content := new Inflight();
      settled, confirmed, removed, rev, issued, open, touched := {}, map[], map[], map[], 0, {}, now;
    }

    /** Records new content of a row: what confirmed or removed it no longer describes it. */
    method Mark(k: RowKey)
      modifies `confirmed, `removed, `rev
      ensures View() == Changed(old(View()), {k})
    {
      confirmed, removed := confirmed - {k}, removed - {k};
      rev := rev[k := (if k in rev then rev[k] else 0) + 1];
    }

    method TombNow(k: RowKey, now: int)
      modifies `removed
      ensures View() == Tomb(old(View()), k, now)
    {
      removed := removed[k := Tombstone(now, 0)];
    }

    /** Applies a content event; one that adds a row also keeps the counts. */
    method ApplyEvent(ev: Event, now: int)
      requires content.Valid()
      modifies this, content
      ensures content.Valid()
      ensures if ev.PartUpserted? || ev.MessageUpserted?
              then View() == Evicted(AfterEvent(old(View()), ev, now), PartOrder(old(content.partOrder), ev), MsgOrder(old(content.msgOrder), ev))
              else View() == AfterEvent(old(View()), ev, now)
    {
      hide Inflight.Valid, AfterEvent, Evicted;
      if ev.PartUpserted? || ev.MessageUpserted? {
        ApplyUpsert(ev, now);
        EvictCounts();
      } else if ev.PartDelta? || ev.MessageRemoved? || ev.PartRemoved? {
        ApplyChange(ev, now);
      } else if ev.HistoryRewritten? {
        ApplyRewrite(ev, now);
      } else {
        OtherEvents(View(), ev, now);
      }
    }

    method ApplyUpsert(ev: Event, now: int)
      requires content.Valid() && (ev.PartUpserted? || ev.MessageUpserted?)
      modifies this, content
      ensures content.Valid() && View() == AfterEvent(old(View()), ev, now)
      ensures content.partOrder == PartOrder(old(content.partOrder), ev)
      ensures content.msgOrder == MsgOrder(old(content.msgOrder), ev)
    {
      hide Inflight.Valid, AfterUpsert, AfterMessage, Changed;
      content.Listed();
      touched := now;
      if ev.PartUpserted? {
        content.Upsert(ev.part, ev.final);
        settled := settled - {ev.part.messageId};
        ChangedTwice(View(), P(ev.part.id), M(ev.part.messageId));
        Mark(P(ev.part.id));
        Mark(M(ev.part.messageId));
      } else {
        content.Message(ev.message);
        settled := settled - {ev.message.id};
        Mark(M(ev.message.id));
      }
    }

    method ApplyChange(ev: Event, now: int)
      requires content.Valid() && (ev.PartDelta? || ev.MessageRemoved? || ev.PartRemoved?)
      modifies this, content
      ensures content.Valid() && View() == AfterEvent(old(View()), ev, now)
    {
      hide Inflight.Valid, AfterDelta, AfterRemovePart, AfterRemoveMessage;
      match ev {
        case PartDelta(p, f, offset, text) =>
          content.Delta(p, f, offset, text);
          Mark(P(p));
        case MessageRemoved(id) =>
          content.RemoveMessage(id);
          settled := settled - {id};
          Mark(M(id));
          TombNow(M(id), now);
        case PartRemoved(_, id) =>
          content.RemovePart(id);
          Mark(P(id));
          TombNow(P(id), now);
      }
      touched := now;
    }

    method ApplyRewrite(ev: Event, now: int)
      requires content.Valid() && ev.HistoryRewritten?
      modifies this, content
      ensures content.Valid() && View() == AfterEvent(old(View()), ev, now)
    {
      hide Inflight.Valid, Less;
      RemoveSettled();
      touched := now;
    }

    method RemoveSettled()
      requires content.Valid()
      modifies content, `settled
      ensures content.Valid() && settled == {} && content.View() == Less(old(content.View()), old(settled), {})
    {
      ghost var was, all := content.View(), settled;
      var rest := settled;
      LessNothing(was);
      while rest != {}
        invariant content.Valid() && rest <= all && settled == all
        invariant content.View() == Less(was, all - rest, {})
      {
        var id :| id in rest;
        content.RemoveMessage(id);
        LessAgain(was, all - rest, {}, id);
        assert all - rest + {id} == all - (rest - {id});
        rest := rest - {id};
      }
      settled := {};
    }

    method EvictCounts()
      requires content.Valid()
      modifies content, `settled
      ensures content.Valid() && View() == Evicted(old(View()), old(content.partOrder), old(content.msgOrder))
    {
      EvictOldParts();
      EvictOldMessages();
    }

    method EvictOldParts()
      requires content.Valid()
      modifies content
      ensures content.Valid() && content.msgOrder == old(content.msgOrder)
      ensures content.View() == EvictParts(old(content.View()), settled, old(content.partOrder))
    {
      hide Inflight.Valid, AfterRemovePart;
      var order, i := content.partOrder, 0;
      ghost var was := content.View();
      while i < |order| && |content.parts| > MAX_PARTS
        invariant 0 <= i <= |order| && content.Valid() && content.msgOrder == old(content.msgOrder)
        invariant EvictParts(was, settled, order) == EvictParts(content.View(), settled, order[i..])
      {
        var p := order[i];
        if p in content.parts && content.parts[p].part.messageId in settled {
          content.RemovePart(p);
        }
        assert order[i..][1..] == order[i + 1..];
        i := i + 1;
      }
    }

    method EvictOldMessages()
      requires content.Valid()
      modifies content, `settled
      ensures content.Valid()
      ensures (content.View(), settled) == EvictMsgs(old(content.View()), old(settled), old(content.msgOrder))
    {
      hide Inflight.Valid, AfterRemoveMessage;
      var order, i := content.msgOrder, 0;
      ghost var was, all := content.View(), settled;
      while i < |order| && |content.msgs| > MAX_MESSAGES
        invariant 0 <= i <= |order| && content.Valid()
        invariant EvictMsgs(was, all, order) == EvictMsgs(content.View(), settled, order[i..])
      {
        var id := order[i];
        if id in settled {
          content.RemoveMessage(id);
          settled := settled - {id};
        }
        assert order[i..][1..] == order[i + 1..];
        i := i + 1;
      }
    }

    /** Marks the ended turn's content; it stays until history stores it. */
    method Settle()
      requires content.Valid()
      modifies `settled
      ensures View() == AfterSettle(old(View()))
    {
      for i := 0 to |content.msgOrder|
        invariant settled == old(settled) + set j | 0 <= j < i :: content.msgOrder[j]
      {
        settled := settled + {content.msgOrder[i]};
      }
      assert settled == old(settled) + content.msgs.Keys by {
        assert forall id :: id in content.msgs ==> id in content.msgOrder;
      }
      ghost var was := settled;
      for i := 0 to |content.partOrder|
        invariant settled == was + set j | 0 <= j < i :: content.parts[content.partOrder[j]].part.messageId
      {
        settled := settled + {content.parts[content.partOrder[i]].part.messageId};
      }
      forall p | p in content.parts
        ensures content.parts[p].part.messageId in settled
      {
        assert p in content.partOrder;
      }
    }

    // ---- reads ----

    method Begin() returns (ticket: nat)
      modifies `issued, `open
      ensures View() == AfterBegin(old(View())) && ticket == issued && ticket in open
    {
      issued := issued + 1;
      open := open + {issued};
      ticket := issued;
    }

    /** The earliest read still open, or the next ticket. */
    method OldestOpen() returns (oldest: nat)
      ensures Oldest(View(), oldest)
    {
      oldest := issued + 1;
      var rest := open;
      while rest != {}
        invariant rest <= open && oldest <= issued + 1
        invariant forall t :: t in open && t !in rest ==> oldest <= t
        invariant oldest == issued + 1 || oldest in open
      {
        var t :| t in rest;
        if t < oldest {
          oldest := t;
        }
        rest := rest - {t};
      }
    }

    method End(ticket: nat, now: int)
      requires content.Valid()
      modifies this, content
      ensures content.Valid() && View() == AfterEnd(old(View()), ticket, now)
    {
      open := open - {ticket};
      Purge(now);
    }

    method Purge(now: int)
      requires content.Valid()
      modifies this, content
      ensures content.Valid() && View() == AfterPurge(old(View()), now)
    {
      hide Oldest, TombSpent, Forgettable, Purged, BeforeOpen;
      var oldest := OldestOpen();
      ghost var l := View();
      PurgeConfirmed(oldest);
      ghost var kept := View();
      PurgeTombs(oldest, now);
      SpentSame(l, kept, now);
      PurgeRevs();
    }

    /** Drops confirmed entries no open read predates. */
    method PurgeConfirmed(oldest: nat)
      requires content.Valid() && Oldest(View(), oldest)
      modifies content, `confirmed, `settled
      ensures content.Valid()
      ensures var gone := Purged(old(View()));
              var ms, ps := (set k | k in gone && k.M? :: k.id), (set k | k in gone && k.P? :: k.id);
              View() == old(View()).(confirmed := old(confirmed) - gone, settled := old(settled) - ms,
                                     content := Content(old(content.msgs) - ms, old(content.parts) - ps))
    {
      ghost var l := View();
      ghost var done: set<RowKey> := {};
      var rest := confirmed.Keys;
      while rest != {}
        invariant content.Valid() && rest + done <= l.confirmed.Keys && rest !! done
        invariant forall k :: k in l.confirmed ==> k in rest || k in done || !BeforeOpen(l, l.confirmed[k])
        invariant forall k :: k in done ==> BeforeOpen(l, l.confirmed[k])
        invariant View() == WithoutRows(l, done)
      {
        var k :| k in rest;
        rest := rest - {k};
        OldestBound(l, oldest, confirmed[k]);
        if confirmed[k] < oldest {
          DropConfirmed(k);
          WithoutAgain(l, done, k);
          done := done + {k};
        }
      }
      assert done == Purged(l);
    }

    method DropConfirmed(k: RowKey)
      requires content.Valid()
      modifies content, `confirmed, `settled
      ensures content.Valid() && View() == WithoutRows(old(View()), {k})
    {
      hide Inflight.Valid;
      confirmed := confirmed - {k};
      match k {
        case P(id) => content.RemovePart(id);
        case M(id) =>
          content.ForgetMessage(id);
          settled := settled - {id};
      }
    }

    method PurgeTombs(oldest: nat, now: int)
      requires Oldest(View(), oldest)
      modifies `removed
      ensures View() == old(View()).(removed := map k | k in old(removed) && !TombSpent(old(View()), old(removed)[k], now) :: old(removed)[k])
    {
      ghost var l := View();
      var rest := removed.Keys;
      while rest != {}
        invariant rest <= l.removed.Keys
        invariant forall k :: k in removed <==> k in l.removed && (k in rest || !TombSpent(l, l.removed[k], now))
        invariant forall k :: k in removed ==> removed[k] == l.removed[k]
      {
        var k :| k in rest;
        var t := removed[k];
        OldestBound(l, oldest, t.cleared);
        if (t.cleared != 0 && t.cleared < oldest) || (t.cleared == 0 && now - t.at > LEDGER_TTL) {
          removed := removed - {k};
        }
        rest := rest - {k};
      }
    }

    /** Forgets the revisions of entries that are gone. */
    method PurgeRevs()
      requires content.Valid()
      modifies `rev
      ensures View() == old(View()).(rev := map k | k in old(rev) && !Forgettable(old(View()), k) :: old(rev)[k])
    {
      ghost var l := View();
      var withParts: set<string> := {};
      for i := 0 to |content.partOrder|
        invariant withParts == set j | 0 <= j < i :: content.parts[content.partOrder[j]].part.messageId
      {
        withParts := withParts + {content.parts[content.partOrder[i]].part.messageId};
      }
      assert forall p :: p in content.parts ==> p in content.partOrder;
      var rest := rev.Keys;
      while rest != {}
        invariant rest <= l.rev.Keys
        invariant forall k :: k in rev <==> k in l.rev && (k in rest || !Forgettable(l, k))
        invariant forall k :: k in rev ==> rev[k] == l.rev[k]
      {
        var k :| k in rest;
        if k !in removed && (if k.P? then k.id !in content.parts else k.id !in content.msgs && k.id !in withParts) {
          rev := rev - {k};
        }
        rest := rest - {k};
      }
    }

    // ---- composing ----

    /** Copies what composing a read needs, in the order it was streamed. */
    method TakeView(ticket: nat) returns (v: LedgerView, msgOrder: seq<string>, partOrder: seq<string>)
      requires content.Valid()
      ensures v == Capture(View(), ticket)
      ensures Lists(msgOrder, v.content.msgs.Keys) && Lists(partOrder, v.content.parts.Keys)
    {
      var msgs, parts := map[], map[];
      msgOrder, msgs := CaptureMessages(ticket);
      partOrder, parts := CaptureParts(ticket);
      var filters := map k | k in removed :: removed[k].cleared == 0 || ticket <= removed[k].cleared;
      v := LedgerView(Content(msgs, parts), settled, confirmed.Keys, filters, rev);
    }

    method CaptureMessages(ticket: nat) returns (order: seq<string>, msgs: map<string, Message>)
      requires content.Valid()
      ensures msgs == Capture(View(), ticket).content.msgs && Lists(order, msgs.Keys)
    {
      order, msgs := [], map[];
      var all := content.msgOrder;
      for i := 0 to |all|
        invariant forall id :: id in msgs <==> id in all[..i] && !Known(View(), ticket, M(id))
        invariant forall id :: id in msgs ==> msgs[id] == content.msgs[id]
        invariant Lists(order, msgs.Keys)
      {
        var id := all[i];
        assert all[..i + 1] == all[..i] + [id] && id !in all[..i];
        if !(M(id) in confirmed && confirmed[M(id)] < ticket) {
          ListsAdd(order, msgs.Keys, id);
          order, msgs := order + [id], msgs[id := content.msgs[id]];
          assert msgs.Keys == msgs.Keys + {id};
        }
      }
      assert all[..|all|] == all;
    }

    method CaptureParts(ticket: nat) returns (order: seq<string>, parts: map<string, LivePart>)
      requires content.Valid()
      ensures parts == Capture(View(), ticket).content.parts && Lists(order, parts.Keys)
    {
      order, parts := [], map[];
      var all := content.partOrder;
      for i := 0 to |all|
        invariant forall id :: id in parts <==> id in all[..i] && !Known(View(), ticket, P(id))
        invariant forall id :: id in parts ==> parts[id] == content.parts[id]
        invariant Lists(order, parts.Keys)
      {
        var id := all[i];
        assert all[..i + 1] == all[..i] + [id] && id !in all[..i];
        if !(P(id) in confirmed && confirmed[P(id)] < ticket) {
          ListsAdd(order, parts.Keys, id);
          order, parts := order + [id], parts[id := content.parts[id]];
          assert parts.Keys == parts.Keys + {id};
        }
      }
      assert all[..|all|] == all;
    }

    /** Applies a composed read's decisions to entries it saw unchanged. */
    method Commit(p: Plan, ghost v: LedgerView, ghost d: Rows)
      requires content.Valid() && p == PlanOf(v, d)
      modifies this, content
      ensures content.Valid() && View() == AfterCommit(old(View()), v, d)
    {
      CommitPlan(View(), v, d);
      hide Inflight.Valid, Less, AfterCommit, PlanOf;
      CommitDropped(p.dropped);
      CommitConfirmed(p.confirmed);
      CommitCleared(p.cleared);
      CommitOrphans(p.orphans);
    }

    method CommitDropped(dropped: map<string, nat>)
      requires content.Valid()
      modifies content, `settled
      ensures content.Valid()
      ensures var drops := set id | id in dropped && RevOf(rev, M(id)) == dropped[id] && id in old(settled);
              View() == old(View()).(content := Less(old(View()).content, drops, {}), settled := old(settled) - drops)
    {
      hide Inflight.Valid, AfterRemoveMessage, Less;
      ghost var l := View();
      ghost var done: set<string> := {};
      LessNothing(l.content);
      var rest := dropped.Keys;
      while rest != {}
        invariant content.Valid() && rest <= dropped.Keys && rest !! done
        invariant forall id :: id in done <==>
                    id in dropped && id !in rest && RevOf(rev, M(id)) == dropped[id] && id in l.settled
        invariant View() == l.(content := Less(l.content, done, {}), settled := l.settled - done)
      {
        var id :| id in rest;
        rest := rest - {id};
        if (if M(id) in rev then rev[M(id)] else 0) == dropped[id] && id in settled {
          content.RemoveMessage(id);
          settled := settled - {id};
          LessAgain(l.content, done, {}, id);
          done := done + {id};
        }
      }
      assert done == set id | id in dropped && RevOf(rev, M(id)) == dropped[id] && id in l.settled;
    }

    method CommitConfirmed(plan: map<RowKey, nat>)
      modifies `confirmed
      ensures View() == old(View()).(confirmed := old(confirmed) +
                map k | k in plan && k !in old(confirmed) && RevOf(rev, k) == plan[k] :: issued)
    {
      ghost var was := confirmed;
      var rest := plan.Keys;
      while rest != {}
        invariant rest <= plan.Keys
        invariant confirmed == was + map k | k in plan && k !in rest && k !in was && RevOf(rev, k) == plan[k] :: issued
      {
        var k :| k in rest;
        rest := rest - {k};
        if k !in confirmed && (if k in rev then rev[k] else 0) == plan[k] {
          confirmed := confirmed[k := issued];
        }
      }
    }

    method CommitCleared(plan: map<RowKey, nat>)
      modifies `removed
      ensures View() == old(View()).(removed := map k | k in old(removed) ::
                if k in plan && old(removed)[k].cleared == 0 && RevOf(rev, k) == plan[k]
                then old(removed)[k].(cleared := issued) else old(removed)[k])
    {
      ghost var was := removed;
      var rest := plan.Keys;
      while rest != {}
        invariant rest <= plan.Keys
        invariant removed == map k | k in was ::
                    if k in plan && k !in rest && was[k].cleared == 0 && RevOf(rev, k) == plan[k]
                    then was[k].(cleared := issued) else was[k]
      {
        var k :| k in rest;
        rest := rest - {k};
        if k in removed && removed[k].cleared == 0 && (if k in rev then rev[k] else 0) == plan[k] {
          removed := removed[k := removed[k].(cleared := issued)];
        }
      }
    }

    method CommitOrphans(plan: map<string, nat>)
      requires content.Valid()
      modifies content
      ensures content.Valid()
      ensures View() == old(View()).(content :=
                Less(old(View()).content, {}, set p | p in plan && RevOf(rev, P(p)) == plan[p]))
    {
      hide Inflight.Valid, AfterRemovePart, Less;
      ghost var c := content.View();
      ghost var done: set<string> := {};
      LessNothing(c);
      var rest := plan.Keys;
      while rest != {}
        invariant content.Valid() && rest <= plan.Keys && rest !! done
        invariant forall p :: p in done <==> p in plan && p !in rest && RevOf(rev, P(p)) == plan[p]
        invariant content.View() == Less(c, {}, done)
      {
        var p :| p in rest;
        rest := rest - {p};
        if (if P(p) in rev then rev[P(p)] else 0) == plan[p] {
          content.RemovePart(p);
          LessPart(c, done, p);
          done := done + {p};
        }
      }
      assert done == set p | p in plan && RevOf(rev, P(p)) == plan[p];
    }
  }

  /** The plan's four parts, applied one after the other. */
  ghost function Following(l: LedgerState, p: Plan): LedgerState {
    var drops := set id | id in p.dropped && RevOf(l.rev, M(id)) == p.dropped[id] && id in l.settled;
    var orphans := set q | q in p.orphans && RevOf(l.rev, P(q)) == p.orphans[q];
    l.(content := Less(Less(l.content, drops, {}), {}, orphans), settled := l.settled - drops,
       confirmed := l.confirmed + map k | k in p.confirmed && k !in l.confirmed && RevOf(l.rev, k) == p.confirmed[k] :: l.issued,
       removed := map k | k in l.removed ::
         if k in p.cleared && l.removed[k].cleared == 0 && RevOf(l.rev, k) == p.cleared[k]
         then l.removed[k].(cleared := l.issued) else l.removed[k])
  }

  lemma CommitPlan(l: LedgerState, v: LedgerView, d: Rows)
    ensures Following(l, PlanOf(v, d)) == AfterCommit(l, v, d)
  {
    hide Less, DroppedMsgs, OrphanParts, ConfirmedKeys, ClearedKeys, RevOf, DropNow, OrphanNow;
    PlanDrops(l, v, d);
    LessTwice(l.content, DropNow(l, v, d), OrphanNow(l, v, d));
    PlanConfirms(l, v, d);
    hide ConfirmNow, ClearsNow, PlanOf;
  }

  lemma PlanDrops(l: LedgerState, v: LedgerView, d: Rows)
    ensures var p := PlanOf(v, d);
            && (set id | id in p.dropped && RevOf(l.rev, M(id)) == p.dropped[id] && id in l.settled) == DropNow(l, v, d)
            && (set q | q in p.orphans && RevOf(l.rev, P(q)) == p.orphans[q]) == OrphanNow(l, v, d)
  {
    hide DroppedMsgs, OrphanParts, ConfirmedKeys, ClearedKeys, RevOf;
  }

  lemma PlanConfirms(l: LedgerState, v: LedgerView, d: Rows)
    ensures var p := PlanOf(v, d);
            && (map k | k in p.confirmed && k !in l.confirmed && RevOf(l.rev, k) == p.confirmed[k] :: l.issued)
               == (map k | k in ConfirmNow(l, v, d) :: l.issued)
            && (map k | k in l.removed ::
                  if k in p.cleared && l.removed[k].cleared == 0 && RevOf(l.rev, k) == p.cleared[k]
                  then l.removed[k].(cleared := l.issued) else l.removed[k])
               == AfterCommit(l, v, d).removed
  {
    hide DroppedMsgs, OrphanParts, ConfirmedKeys, ClearedKeys, RevOf, DropNow, OrphanNow, Less;
  }

  lemma LessPart(c: Content, ps: set<string>, p: string)
    ensures AfterRemovePart(Less(c, {}, ps), p) == Less(c, {}, ps + {p})
  {
  }

  lemma LessTwice(c: Content, ms: set<string>, ps: set<string>)
    ensures Less(Less(c, ms, {}), {}, ps) == Less(c, ms, ps)
  {
  }

  /** The state once the confirmed rows of `ks` have left. */
  ghost function WithoutRows(l: LedgerState, ks: set<RowKey>): LedgerState {
    var ms, ps := (set k | k in ks && k.M? :: k.id), (set k | k in ks && k.P? :: k.id);
    l.(confirmed := l.confirmed - ks, settled := l.settled - ms,
       content := Content(l.content.msgs - ms, l.content.parts - ps))
  }

  lemma WithoutAgain(l: LedgerState, ks: set<RowKey>, k: RowKey)
    ensures WithoutRows(WithoutRows(l, ks), {k}) == WithoutRows(l, ks + {k})
  {
    var a, b := WithoutRows(WithoutRows(l, ks), {k}), WithoutRows(l, ks + {k});
    assert a.content.msgs == b.content.msgs;
    assert a.content.parts == b.content.parts;
  }
}

/** Composing one read in place: what the read decides, and the streamed content laid over it. */
module LedgerCompose {
  import opened Events
  import opened Utf16
  import opened StreamContent
  import opened LedgerModel
  import opened Ledger
  import opened Sorting

  /** A stored read: its newest page in order, and how many messages there are in all. */
  class Detail {
    var messages: seq<Message>
    var parts: seq<Part>
    var total: int

    constructor (messages: seq<Message>, parts: seq<Part>, total: int)
      ensures this.messages == messages && this.parts == parts && this.total == total
    {
      this.messages, this.parts, this.total := messages, parts, total;
    }

    ghost function View(): Rows
      reads this
    {
      RowsOf(messages, parts)
    }

    /** A stored row is listed once. */
    ghost predicate Valid()
      reads this
    {
      Distinct(messages, MessageId) && Distinct(parts, PartId)
    }
  }

  // ---- lists of rows ----

  function MessageId(m: Message): string { m.id }

  function PartId(p: Part): string { p.id }

  ghost predicate Distinct<T(!new)>(rows: seq<T>, id: T -> string) {
    forall i, j :: 0 <= i < j < |rows| ==> id(rows[i]) != id(rows[j])
  }

  /** The rows by id. */
  function Index<T>(rows: seq<T>, id: T -> string): map<string, T> {
    if rows == [] then map[] else Index(rows[..|rows| - 1], id)[id(rows[|rows| - 1]) := rows[|rows| - 1]]
  }

  function RowsOf(messages: seq<Message>, parts: seq<Part>): Rows {
    Rows(Index(messages, MessageId), Index(parts, PartId))
  }

  lemma IndexAppend<T>(rows: seq<T>, row: T, id: T -> string)
    ensures Index(rows + [row], id) == Index(rows, id)[id(row) := row]
  {
    assert (rows + [row])[..|rows|] == rows;
  }

  /** Every listed row is found under its id, and nothing else is. */
  lemma {:induction false} IndexFinds<T(!new)>(rows: seq<T>, id: T -> string)
    requires Distinct(rows, id)
    ensures forall i :: 0 <= i < |rows| ==> id(rows[i]) in Index(rows, id) && Index(rows, id)[id(rows[i])] == rows[i]
    ensures forall k :: k in Index(rows, id) ==> exists i :: 0 <= i < |rows| && id(rows[i]) == k
    ensures |Index(rows, id)| == |rows|
  {
    if rows != [] {
      var most, last := rows[..|rows| - 1], rows[|rows| - 1];
      IndexFinds(most, id);
      assert id(last) !in Index(most, id);
      forall k | k in Index(rows, id)
        ensures exists i :: 0 <= i < |rows| && id(rows[i]) == k
      {
        if k == id(last) {
          assert id(rows[|rows| - 1]) == k;
        } else {
          var i :| 0 <= i < |most| && id(most[i]) == k;
          assert id(rows[i]) == k;
        }
      }
    }
  }

  lemma IndexAt<T(!new)>(rows: seq<T>, i: nat, id: T -> string)
    requires Distinct(rows, id) && i < |rows|
    ensures id(rows[i]) in Index(rows, id) && Index(rows, id)[id(rows[i])] == rows[i]
  {
    IndexFinds(rows, id);
  }

  lemma {:induction false} IndexUpdate<T(!new)>(rows: seq<T>, i: nat, row: T, id: T -> string)
    requires Distinct(rows, id) && i < |rows| && id(row) == id(rows[i])
    ensures Distinct(rows[i := row], id) && Index(rows[i := row], id) == Index(rows, id)[id(row) := row]
  {
    var most, last := rows[..|rows| - 1], rows[|rows| - 1];
    if i == |rows| - 1 {
      assert rows[i := row][..|rows| - 1] == most;
    } else {
      IndexUpdate(most, i, row, id);
      assert rows[i := row][..|rows| - 1] == most[i := row];
    }
  }

  /** The rows by id, and where each is listed. */
  method IndexRows<T(!new)>(rows: seq<T>, id: T -> string) returns (index: map<string, T>, at: map<string, nat>)
    requires Distinct(rows, id)
    ensures index == Index(rows, id) && at.Keys == index.Keys
    ensures forall k :: k in at ==> at[k] < |rows| && id(rows[at[k]]) == k && rows[at[k]] == index[k]
  {
    index, at := map[], map[];
    for i := 0 to |rows|
      invariant index == Index(rows[..i], id) && at.Keys == index.Keys
      invariant forall k :: k in at ==> at[k] < i && id(rows[at[k]]) == k && rows[at[k]] == index[k]
    {
      assert rows[..i + 1] == rows[..i] + [rows[i]];
      IndexAppend(rows[..i], rows[i], id);
      index, at := index[id(rows[i]) := rows[i]], at[id(rows[i]) := i];
    }
    assert rows[..|rows|] == rows;
  }

  function Kept<T>(rows: map<string, T>, gone: T -> bool): map<string, T> {
    map k | k in rows && !gone(rows[k]) :: rows[k]
  }

  lemma KeptAppend<T>(rows: map<string, T>, k: string, row: T, gone: T -> bool)
    requires k !in rows
    ensures Kept(rows[k := row], gone) == if gone(row) then Kept(rows, gone) else Kept(rows, gone)[k := row]
  {
  }

  /** The rows a predicate does not rule out, in order. */
  method KeepRows<T(!new)>(rows: seq<T>, id: T -> string, gone: T -> bool) returns (out: seq<T>)
    requires Distinct(rows, id)
    ensures Distinct(out, id) && Index(out, id) == Kept(Index(rows, id), gone)
  {
    hide Index;
    out := [];
    assert Index(out, id) == Kept(Index(rows[..0], id), gone) by { IndexNone(id, gone); }
    for i := 0 to |rows|
      invariant Distinct(out, id) && Index(out, id) == Kept(Index(rows[..i], id), gone)
    {
      assert rows[..i + 1] == rows[..i] + [rows[i]];
      IndexAppend(rows[..i], rows[i], id);
      NotYet(rows, i, id);
      KeptAppend(Index(rows[..i], id), id(rows[i]), rows[i], gone);
      if !gone(rows[i]) {
        AppendDistinct(out, rows[i], id);
        IndexAppend(out, rows[i], id);
        out := out + [rows[i]];
      }
    }
    assert rows[..|rows|] == rows;
  }

  lemma IndexNone<T>(id: T -> string, gone: T -> bool)
    ensures Index([], id) == map[] == Kept(map[], gone)
  {
  }

  lemma NotYet<T(!new)>(rows: seq<T>, i: nat, id: T -> string)
    requires Distinct(rows, id) && i < |rows|
    ensures id(rows[i]) !in Index(rows[..i], id)
  {
    IndexFinds(rows[..i], id);
  }

  lemma AppendDistinct<T(!new)>(rows: seq<T>, row: T, id: T -> string)
    requires Distinct(rows, id) && id(row) !in Index(rows, id)
    ensures Distinct(rows + [row], id)
  {
    IndexFinds(rows, id);
  }

  // ---- deciding ----

  /** The newest time of a stored message the ledger does not hold. */
  method Newest(v: LedgerView, messages: seq<Message>) returns (newest: int)
    requires Distinct(messages, MessageId)
    ensures forall time, parts :: MovedPast(v, RowsOf(messages, parts), time) <==> time < newest
  {
    newest := MIN_TIME;
    for i := 0 to |messages|
      invariant newest >= MIN_TIME
      invariant forall j :: 0 <= j < i && messages[j].id !in v.content.msgs ==> messages[j].timeCreated <= newest
      invariant newest == MIN_TIME ||
                exists j :: 0 <= j < i && messages[j].id !in v.content.msgs && messages[j].timeCreated == newest
    {
      if messages[i].id !in v.content.msgs && messages[i].timeCreated > newest {
        newest := messages[i].timeCreated;
      }
    }
    IndexFinds(messages, MessageId);
    forall time, parts
      ensures MovedPast(v, RowsOf(messages, parts), time) <==> time < newest
    {
      var d := RowsOf(messages, parts);
      if MIN_TIME <= time < newest {
        var j :| 0 <= j < |messages| && messages[j].id !in v.content.msgs && messages[j].timeCreated == newest;
        assert MessageId(messages[j]) in d.msgs;
      }
      if MovedPast(v, d, time) && MIN_TIME <= time {
        var id :| id in d.msgs && id !in v.content.msgs && time < d.msgs[id].timeCreated;
        var j :| 0 <= j < |messages| && MessageId(messages[j]) == id;
      }
    }
  }

  method DecideCleared(v: LedgerView, d: Rows) returns (cleared: map<RowKey, nat>)
    ensures cleared == Revs(v, ClearedKeys(v, d))
  {
    cleared := map[];
    var rest := v.removed.Keys;
    while rest != {}
      invariant rest <= v.removed.Keys
      invariant cleared == map k | k in v.removed && k !in rest && !RowIn(d, k) :: RevOf(v.rev, k)
    {
      var k :| k in rest;
      rest := rest - {k};
      if (k.M? && k.id !in d.msgs) || (k.P? && k.id !in d.parts) {
        cleared := cleared[k := RevOf(v.rev, k)];
      }
    }
  }

  /** Ended messages missing from a read that stores later ones. */
  method DecideDropped(v: LedgerView, msgOrder: seq<string>, d: Rows, newest: int) returns (dropped: map<string, nat>)
    requires Lists(msgOrder, v.content.msgs.Keys) && forall time :: MovedPast(v, d, time) <==> time < newest
    ensures dropped == MsgRevs(v, DroppedMsgs(v, d)) && dropped.Keys == DroppedMsgs(v, d)
  {
    hide MovedPast;
    dropped := map[];
    for i := 0 to |msgOrder|
      invariant forall id :: id in dropped <==> id in msgOrder[..i] && id in DroppedMsgs(v, d)
      invariant forall id :: id in dropped ==> dropped[id] == RevOf(v.rev, M(id))
    {
      var id := msgOrder[i];
      assert msgOrder[..i + 1] == msgOrder[..i] + [id];
      assert MovedPast(v, d, v.content.msgs[id].timeCreated) <==> v.content.msgs[id].timeCreated < newest;
      if id !in d.msgs && id in v.settled && v.content.msgs[id].timeCreated < newest {
        dropped := dropped[id := RevOf(v.rev, M(id))];
      }
    }
    assert msgOrder[..|msgOrder|] == msgOrder;
  }

  method CoversPart(lp: LivePart, stored: PartData) returns (covers: bool)
    ensures covers == Covers(lp, stored)
  {
    var rest := lp.fields.Keys;
    while rest != {}
      invariant rest <= lp.fields.Keys
      invariant forall f :: f in lp.fields && f !in rest ==> Units(lp.fields[f].b) <= Units(Have(stored, f))
    {
      var f :| f in rest;
      var have := UTF16Len(Have(stored, f));
      var value := UTF16Len(lp.fields[f].b);
      EncodeLength(Have(stored, f));
      EncodeLength(lp.fields[f].b);
      if have < value {
        return false;
      }
      rest := rest - {f};
    }
    covers := !lp.final || stored.status == lp.part.data.status;
  }

  datatype Verdict = Unjudged | Orphaned | Awaiting | Confirming

  ghost function VerdictOf(v: LedgerView, d: Rows, p: string): Verdict
    requires p in v.content.parts
  {
    if p in OrphanParts(v, d) then Orphaned
    else if !Judged(v, d, p) then Unjudged
    else if p in ConfirmedParts(v, d) then Confirming
    else Awaiting
  }

  /** A completed stored message owns its parts even when it keeps less text or omits some. */
  method JudgePart(v: LedgerView, d: Rows, dropped: map<string, nat>, p: string) returns (verdict: Verdict)
    requires p in v.content.parts && dropped.Keys == DroppedMsgs(v, d)
    ensures verdict == VerdictOf(v, d, p)
  {
    hide DroppedMsgs, Covers;
    var lp := v.content.parts[p];
    var mid := lp.part.messageId;
    if mid in dropped {
      return Unjudged;
    }
    if mid !in v.content.msgs && mid !in d.msgs && mid in v.settled {
      return Orphaned;
    }
    if mid !in v.settled {
      return Awaiting;
    }
    var covered := false;
    if p in d.parts {
      covered := CoversPart(lp, d.parts[p].data);
    }
    verdict := if P(p) in v.confirmed || (mid in d.msgs && Completed(d.msgs[mid].data)) || covered then Confirming else Awaiting;
  }

  /** Each part is forgotten, awaited or confirmed. */
  method DecideParts(v: LedgerView, partOrder: seq<string>, d: Rows, dropped: map<string, nat>)
    returns (orphans: map<string, nat>, confirmed: map<string, nat>, pending: set<string>)
    requires Lists(partOrder, v.content.parts.Keys) && dropped.Keys == DroppedMsgs(v, d)
    ensures orphans == PartRevs(v, OrphanParts(v, d))
    ensures confirmed == PartRevs(v, ConfirmedParts(v, d))
    ensures pending == PendingMsgs(v, d)
  {
    hide DroppedMsgs, VerdictOf, OrphanParts, ConfirmedParts, PendingMsgs, RevOf, Judging, MessagesOf;
    orphans, confirmed, pending := map[], map[], {};
    JudgingNone(v, d);
    for i := 0 to |partOrder|
      invariant orphans.Keys == Judging(v, d, partOrder[..i], Orphaned)
      invariant forall p :: p in orphans ==> orphans[p] == RevOf(v.rev, P(p))
      invariant confirmed.Keys == Judging(v, d, partOrder[..i], Confirming)
      invariant forall p :: p in confirmed ==> confirmed[p] == RevOf(v.rev, P(p))
      invariant pending == MessagesOf(v, Judging(v, d, partOrder[..i], Awaiting))
    {
      var p := partOrder[i];
      assert partOrder[..i + 1] == partOrder[..i] + [p];
      JudgingAppend(v, d, partOrder[..i], p);
      var verdict := JudgePart(v, d, dropped, p);
      match verdict {
        case Unjudged =>
        case Orphaned => orphans := orphans[p := RevOf(v.rev, P(p))];
        case Confirming => confirmed := confirmed[p := RevOf(v.rev, P(p))];
        case Awaiting => pending := pending + {v.content.parts[p].part.messageId};
      }
    }
    assert partOrder[..|partOrder|] == partOrder;
    JudgingAll(v, d, partOrder);
  }

  /** The parts among those listed that a verdict falls on. */
  ghost function Judging(v: LedgerView, d: Rows, ps: seq<string>, verdict: Verdict): set<string> {
    set p | p in ps && p in v.content.parts && VerdictOf(v, d, p) == verdict
  }

  ghost function MessagesOf(v: LedgerView, ps: set<string>): set<string> {
    set p | p in ps && p in v.content.parts :: v.content.parts[p].part.messageId
  }

  lemma JudgingNone(v: LedgerView, d: Rows)
    ensures forall verdict :: Judging(v, d, [], verdict) == {}
    ensures MessagesOf(v, {}) == {}
  {
  }

  lemma JudgingAppend(v: LedgerView, d: Rows, ps: seq<string>, p: string)
    requires p in v.content.parts
    ensures forall verdict :: Judging(v, d, ps + [p], verdict) ==
              if VerdictOf(v, d, p) == verdict then Judging(v, d, ps, verdict) + {p} else Judging(v, d, ps, verdict)
    ensures forall qs :: MessagesOf(v, qs + {p}) == MessagesOf(v, qs) + {v.content.parts[p].part.messageId}
  {
    hide VerdictOf;
  }

  lemma JudgingAll(v: LedgerView, d: Rows, ps: seq<string>)
    requires Lists(ps, v.content.parts.Keys)
    ensures Judging(v, d, ps, Orphaned) == OrphanParts(v, d) && Judging(v, d, ps, Confirming) == ConfirmedParts(v, d)
    ensures MessagesOf(v, Judging(v, d, ps, Awaiting)) == PendingMsgs(v, d)
  {
    hide DroppedMsgs, PartStored;
  }

  method DecideMessages(v: LedgerView, msgOrder: seq<string>, d: Rows, pending: set<string>) returns (confirmed: map<string, nat>)
    requires Lists(msgOrder, v.content.msgs.Keys) && pending == PendingMsgs(v, d)
    ensures confirmed == MsgRevs(v, ConfirmedMsgs(v, d))
  {
    hide PendingMsgs;
    confirmed := map[];
    for i := 0 to |msgOrder|
      invariant forall id :: id in confirmed <==> id in msgOrder[..i] && id in ConfirmedMsgs(v, d)
      invariant forall id :: id in confirmed ==> confirmed[id] == RevOf(v.rev, M(id))
    {
      var id := msgOrder[i];
      assert msgOrder[..i + 1] == msgOrder[..i] + [id];
      if id in d.msgs && id in v.settled && id !in pending && EndingCovered(v.content.msgs[id].data, d.msgs[id].data) {
        confirmed := confirmed[id := RevOf(v.rev, M(id))];
      }
    }
    assert msgOrder[..|msgOrder|] == msgOrder;
  }

  lemma ConfirmedBoth(v: LedgerView, d: Rows, parts: map<string, nat>, msgs: map<string, nat>)
    requires parts == PartRevs(v, ConfirmedParts(v, d))
    requires msgs == MsgRevs(v, ConfirmedMsgs(v, d))
    ensures (map q | q in parts :: P(q) := parts[q]) + (map id | id in msgs :: M(id) := msgs[id])
         == Revs(v, ConfirmedKeys(v, d))
  {
    hide ConfirmedParts, ConfirmedMsgs, RevOf;
  }

  /** What the read confirms, drops, clears and orphans, each with the revision captured. */
  method Decide(v: LedgerView, msgOrder: seq<string>, partOrder: seq<string>, d: Detail) returns (p: Plan)
    requires d.Valid() && Lists(msgOrder, v.content.msgs.Keys) && Lists(partOrder, v.content.parts.Keys)
    ensures p == PlanOf(v, d.View())
  {
    hide DroppedMsgs, OrphanParts, ConfirmedParts, ConfirmedMsgs, PendingMsgs, MovedPast, ClearedKeys, ConfirmedKeys, RevOf, Index, Revs, MsgRevs, PartRevs;
    var stored, _ := IndexRows(d.messages, MessageId);
    var storedParts, _ := IndexRows(d.parts, PartId);
    var rows := Rows(stored, storedParts);
    var newest := Newest(v, d.messages);
    assert rows == RowsOf(d.messages, d.parts);
    var cleared := DecideCleared(v, rows);
    var dropped := DecideDropped(v, msgOrder, rows, newest);
    var orphans, parts, pending := DecideParts(v, partOrder, rows, dropped);
    var msgs := DecideMessages(v, msgOrder, rows, pending);
    var confirmed := (map q | q in parts :: P(q) := parts[q]) + (map id | id in msgs :: M(id) := msgs[id]);
    ConfirmedBoth(v, rows, parts, msgs);
    p := Plan(confirmed, dropped, cleared, orphans);
  }

  // ---- overlaying ----

  function TimeOf(m: Message): int { m.timeCreated }

  /** The messages oldest first; those of one time keep their order. */
  function ByTime(ms: seq<Message>): seq<Message> { SortBy(ms, TimeOf) }

  /** The captured messages among some. */
  ghost function OfMsgs(v: LedgerView, ids: set<string>): LedgerView {
    v.(content := v.content.(msgs := map id | id in v.content.msgs && id in ids :: v.content.msgs[id]))
  }

  /** One captured message's effect on the read. */
  lemma OverlayMsgStep(v: LedgerView, ids: set<string>, id: string, d: Rows, limit: nat, dropped: set<string>)
    requires id in v.content.msgs && id !in ids
    ensures var before, m := OverlayMsgs(OfMsgs(v, ids), d, limit, dropped), v.content.msgs[id];
            && OverlayMsgs(OfMsgs(v, ids + {id}), d, limit, dropped)
               == (if id !in dropped && (if id in d.msgs then !EndingCovered(m.data, d.msgs[id].data)
                                         else !BeforePage(d, limit, m.timeCreated))
                   then before[id := m] else before)
            && (id in before <==> id in d.msgs) && (id in d.msgs ==> before[id] == d.msgs[id])
  {
    hide BeforePage, EndingCovered;
  }

  /** The time a full page starts at. */
  method PageStart(messages: seq<Message>, limit: nat) returns (oldest: int)
    requires Distinct(messages, MessageId)
    ensures forall time, parts :: BeforePage(RowsOf(messages, parts), limit, time) <==> time < oldest
  {
    oldest := MIN_TIME;
    IndexFinds(messages, MessageId);
    if limit > 0 && |messages| >= limit {
      oldest := messages[0].timeCreated;
      for i := 1 to |messages|
        invariant forall j :: 0 <= j < i ==> oldest <= messages[j].timeCreated
        invariant exists j :: 0 <= j < i && messages[j].timeCreated == oldest
      {
        if messages[i].timeCreated < oldest {
          oldest := messages[i].timeCreated;
        }
      }
      var j :| 0 <= j < |messages| && messages[j].timeCreated == oldest;
      assert MessageId(messages[j]) == messages[j].id;
      forall id | id in Index(messages, MessageId)
        ensures oldest <= Index(messages, MessageId)[id].timeCreated
      {
        var k :| 0 <= k < |messages| && MessageId(messages[k]) == id;
      }
    }
  }

  /** Adds the messages history lacks in the page's range and those with fuller endings. */
  method OverlayMessages(v: LedgerView, msgOrder: seq<string>, d: Detail, limit: nat, dropped: map<string, nat>)
    returns (added: seq<string>)
    requires d.Valid() && Lists(msgOrder, v.content.msgs.Keys)
    requires forall id :: id in v.content.msgs ==> v.content.msgs[id].id == id
    modifies d`messages, d`total
    ensures d.Valid() && d.View().msgs == OverlayMsgs(v, old(d.View()), limit, dropped.Keys)
    ensures forall id :: id in added <==> id in d.View().msgs && id !in old(d.View()).msgs
    ensures d.total == old(d.total) + |added| && |d.messages| == |old(d.messages)| + |added|
    ensures added != [] ==> SortedBy(d.messages, TimeOf)
  {
    hide OverlayMsgs, EndingCovered, BeforePage, Index, Distinct, Lists, Firsts, OfMsgs, SortedBy, ByTime;
    ghost var base := d.View();
    var _, at := IndexRows(d.messages, MessageId);
    var oldest := PageStart(d.messages, limit);
    added := [];
    OverlayNothing(v, base, limit, dropped.Keys, msgOrder);
    for i := 0 to |msgOrder|
      invariant d.Valid() && Index(d.messages, MessageId) == OverlayMsgs(OfMsgs(v, Firsts(msgOrder, i)), base, limit, dropped.Keys)
      invariant forall id :: id in at ==> at[id] < |d.messages| && d.messages[at[id]].id == id
      invariant forall id :: id in added <==> id in Index(d.messages, MessageId) && id !in base.msgs
      invariant |d.messages| == |old(d.messages)| + |added| && d.total == old(d.total)
    {
      var id := msgOrder[i];
      FirstsNext(msgOrder, i, v.content.msgs.Keys);
      OverlayMsgStep(v, Firsts(msgOrder, i), id, base, limit, dropped.Keys);
      var m := v.content.msgs[id];
      if id in at {
        IndexAt(d.messages, at[id], MessageId);
      }
      if id in dropped {
      } else if id !in at {
        assert BeforePage(base, limit, m.timeCreated) <==> m.timeCreated < oldest;
        if m.timeCreated >= oldest {
          AppendDistinct(d.messages, m, MessageId);
          IndexAppend(d.messages, m, MessageId);
          d.messages := d.messages + [m];
          added := added + [id];
        }
      } else if !EndingCovered(m.data, d.messages[at[id]].data) {
        IndexUpdate(d.messages, at[id], m, MessageId);
        d.messages := d.messages[at[id] := m];
      }
    }
    OverlayEverything(v, msgOrder);
    if |added| > 0 {
      SortedIndex(d.messages);
      assert SortedBy(ByTime(d.messages), TimeOf) by { TimeSorted(d.messages); }
      d.messages := ByTime(d.messages);
      d.total := d.total + |added|;
    }
  }

  lemma TimeSorted(ms: seq<Message>)
    ensures SortedBy(ByTime(ms), TimeOf)
  {
    SortKeeps(ms, TimeOf);
  }

  ghost function Firsts(ids: seq<string>, i: nat): set<string>
    requires i <= |ids|
  {
    set j | 0 <= j < i :: ids[j]
  }

  lemma FirstsNext(ids: seq<string>, i: nat, all: set<string>)
    requires i < |ids| && Lists(ids, all)
    ensures Firsts(ids, i + 1) == Firsts(ids, i) + {ids[i]} && ids[i] in all && ids[i] !in Firsts(ids, i)
  {
  }

  lemma OverlayNothing(v: LedgerView, d: Rows, limit: nat, dropped: set<string>, msgOrder: seq<string>)
    ensures OverlayMsgs(OfMsgs(v, Firsts(msgOrder, 0)), d, limit, dropped) == d.msgs
  {
  }

  lemma OverlayEverything(v: LedgerView, msgOrder: seq<string>)
    requires Lists(msgOrder, v.content.msgs.Keys)
    ensures OfMsgs(v, Firsts(msgOrder, |msgOrder|)) == v
  {
    forall id | id in v.content.msgs
      ensures id in Firsts(msgOrder, |msgOrder|)
    {
      assert id in msgOrder;
    }
    assert OfMsgs(v, Firsts(msgOrder, |msgOrder|)).content.msgs == v.content.msgs;
  }

  lemma {:induction false} InsertIndex(ms: seq<Message>, m: Message)
    requires Distinct(ms, MessageId) && m.id !in Index(ms, MessageId)
    ensures var r := Insert(ms, m, TimeOf);
            Distinct(r, MessageId) && Index(r, MessageId) == Index(ms, MessageId)[m.id := m]
  {
    if ms == [] || ms[|ms| - 1].timeCreated <= m.timeCreated {
      AppendDistinct(ms, m, MessageId);
      IndexAppend(ms, m, MessageId);
    } else {
      var most, last := ms[..|ms| - 1], ms[|ms| - 1];
      NotYet(ms, |ms| - 1, MessageId);
      InsertIndex(most, m);
      AppendDistinct(Insert(most, m, TimeOf), last, MessageId);
      IndexAppend(Insert(most, m, TimeOf), last, MessageId);
      IndexAppend(most, last, MessageId);
      assert ms == most + [last];
      PutSwap(Index(most, MessageId), m, last);
    }
  }

  lemma PutSwap(x: map<string, Message>, a: Message, b: Message)
    requires a.id != b.id
    ensures x[a.id := a][b.id := b] == x[b.id := b][a.id := a]
  {
  }

  /** Sorting keeps every row. */
  lemma {:induction false} SortedIndex(ms: seq<Message>)
    requires Distinct(ms, MessageId)
    ensures Distinct(ByTime(ms), MessageId) && Index(ByTime(ms), MessageId) == Index(ms, MessageId)
    ensures |ByTime(ms)| == |ms|
  {
    SortKeeps(ms, TimeOf);
    if ms != [] {
      SortedIndex(ms[..|ms| - 1]);
      NotYet(ms, |ms| - 1, MessageId);
      InsertIndex(ByTime(ms[..|ms| - 1]), ms[|ms| - 1]);
    }
  }

  /** The captured parts among some. */
  ghost function OfParts(v: LedgerView, ps: set<string>): LedgerView {
    v.(content := v.content.(parts := map p | p in v.content.parts && p in ps :: v.content.parts[p]))
  }

  /** One captured part's effect on the read. */
  lemma OverlayPartStep(v: LedgerView, ps: set<string>, p: string, d: Rows, shown: map<string, Message>)
    requires p in v.content.parts && p !in ps
    ensures var before, lp := OverlayParts(OfParts(v, ps), d, shown), v.content.parts[p];
            && OverlayParts(OfParts(v, ps + {p}), d, shown)
               == (if p in d.parts || lp.part.messageId in shown then before[p := OverlayPart(lp, StoredPart(d, p))] else before)
            && (p in before <==> p in d.parts) && (p in d.parts ==> before[p] == d.parts[p])
  {
    hide OverlayPart;
  }

  lemma OverlayNoParts(v: LedgerView, d: Rows, shown: map<string, Message>, partOrder: seq<string>)
    ensures OverlayParts(OfParts(v, Firsts(partOrder, 0)), d, shown) == d.parts
  {
  }

  lemma OverlayEveryPart(v: LedgerView, partOrder: seq<string>)
    requires Lists(partOrder, v.content.parts.Keys)
    ensures OfParts(v, Firsts(partOrder, |partOrder|)) == v
  {
    forall p | p in v.content.parts
      ensures p in Firsts(partOrder, |partOrder|)
    {
      assert p in partOrder;
    }
    assert OfParts(v, Firsts(partOrder, |partOrder|)).content.parts == v.content.parts;
  }

  /** A stored part with the streamed values longer than its own, or the final part it does not cover. */
  method LaidOver(lp: LivePart, stored: Part) returns (p: Part)
    ensures p == OverlayPart(lp, Some(stored))
  {
    var covered := CoversPart(lp, stored.data);
    if lp.final && !covered {
      p := Render(lp);
    } else {
      p := stored.(data := WithFields(stored.data, Values(lp.fields)));
    }
  }

  lemma OverlaidId(lp: LivePart, p: string, d: Rows)
    requires lp.part.id == p && (p in d.parts ==> d.parts[p].id == p)
    ensures OverlayPart(lp, StoredPart(d, p)).id == p
  {
  }

  /** Adds the streamed parts of shown messages, and lengthens the stored ones. */
  method OverlayStreamed(v: LedgerView, partOrder: seq<string>, d: Detail)
    requires d.Valid() && Lists(partOrder, v.content.parts.Keys)
    requires forall p :: p in v.content.parts ==> v.content.parts[p].part.id == p
    modifies d`parts
    ensures d.Valid() && d.View().parts == OverlayParts(v, old(d.View()), old(d.View()).msgs)
  {
    hide OverlayParts, OverlayPart, Index, Distinct, Lists, Firsts, OfParts;
    ghost var base := d.View();
    var present, _ := IndexRows(d.messages, MessageId);
    var stored, at := IndexRows(d.parts, PartId);
    OverlayNoParts(v, base, present, partOrder);
    for i := 0 to |partOrder|
      invariant Distinct(d.parts, PartId)
      invariant Index(d.parts, PartId) == OverlayParts(OfParts(v, Firsts(partOrder, i)), base, present)
      invariant forall p :: p in at ==> at[p] < |d.parts| && d.parts[at[p]].id == p
    {
      var p := partOrder[i];
      FirstsNext(partOrder, i, v.content.parts.Keys);
      OverlayPartStep(v, Firsts(partOrder, i), p, base, present);
      var lp := v.content.parts[p];
      if p in at {
        IndexAt(d.parts, at[p], PartId);
        var row := LaidOver(lp, d.parts[at[p]]);
        OverlaidId(lp, p, base);
        IndexUpdate(d.parts, at[p], row, PartId);
        d.parts := d.parts[at[p] := row];
      } else if lp.part.messageId in present {
        var row := Render(lp);
        assert row == OverlayPart(lp, None) by { RenderAlone(lp); }
        OverlaidId(lp, p, base);
        AppendDistinct(d.parts, row, PartId);
        IndexAppend(d.parts, row, PartId);
        d.parts := d.parts + [row];
      }
    }
    OverlayEveryPart(v, partOrder);
  }

  lemma RenderAlone(lp: LivePart)
    ensures OverlayPart(lp, None) == Render(lp)
  {
  }

  /** Drops the rows tombstones keep from this read. */
  method DropRemoved(v: LedgerView, d: Detail)
    requires d.Valid()
    modifies d`messages, d`parts
    ensures d.Valid() && d.View() == WithoutRemoved(v, old(d.View()))
  {
    IndexIds(d);
    hide Index, Distinct, Filtered;
    var messages := KeepRows(d.messages, MessageId, (m: Message) => Filtered(v, M(m.id)));
    var parts := KeepRows(d.parts, PartId, (p: Part) => Filtered(v, P(p.id)) || Filtered(v, M(p.messageId)));
    d.messages, d.parts := messages, parts;
  }

  lemma IndexIds(d: Detail)
    requires d.Valid()
    ensures forall id :: id in d.View().msgs ==> d.View().msgs[id].id == id
    ensures forall p :: p in d.View().parts ==> d.View().parts[p].id == p
  {
    IndexFinds(d.messages, MessageId);
    IndexFinds(d.parts, PartId);
  }

  /**
   Composes the newest page: it returns what the read decided and the messages it added,
   which are not stored history.
   */
  method ComposeRead(v: LedgerView, msgOrder: seq<string>, partOrder: seq<string>, d: Detail, limit: nat)
    returns (p: Plan, added: seq<string>)
    requires d.Valid() && Lists(msgOrder, v.content.msgs.Keys) && Lists(partOrder, v.content.parts.Keys) && Keyed(v.content)
    modifies d
    ensures d.Valid() && p == PlanOf(v, old(d.View()))
    ensures d.View() == Compose(v, old(d.View()), limit)
    ensures d.total == old(d.total) + |added|
    ensures forall id :: id in added <==> id in d.View().msgs && id !in WithoutRemoved(v, old(d.View())).msgs
    ensures added != [] ==> SortedBy(d.messages, TimeOf)
  {
    hide DroppedMsgs, OrphanParts, ConfirmedKeys, ClearedKeys, OverlayMsgs, OverlayParts, Distinct, Index, SortedBy, Revs, PartRevs;
    p := Decide(v, msgOrder, partOrder, d);
    assert p.dropped.Keys == DroppedMsgs(v, old(d.View()));
    hide PlanOf;
    DropRemoved(v, d);
    added := OverlayMessages(v, msgOrder, d, limit, p.dropped);
    ghost var overlaid := d.View();
    OverlayStreamed(v, partOrder, d);
    PartsOnly(v, overlaid, WithoutRemoved(v, old(d.View())), overlaid.msgs);
  }

  lemma PartsOnly(v: LedgerView, d: Rows, e: Rows, shown: map<string, Message>)
    requires d.parts == e.parts
    ensures OverlayParts(v, d, shown) == OverlayParts(v, e, shown)
  {
    hide OverlayPart;
  }
}

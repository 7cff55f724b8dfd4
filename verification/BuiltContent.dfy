/**
 What the stream built, folded from its events alone, against what composed reads hold:
 the ledger may have given a part up to history when a delta for it arrives, and exactly
 then text can be lost.
 */
module BuiltContent {
  import opened Arithmetic
  import opened Events
  import opened Utf16
  import opened StreamContent
  import opened LedgerModel
  import opened LedgerRuns

  /** A run and what its stream built. */
  datatype Track = Track(w: World, built: Content)

  function NewTrack(rows: Rows): Track { Track(NewWorld(rows), EMPTY) }

  function Next(x: Track, step: Step): Track
    requires |x.w.hist| > 0
  {
    Track(Do(x.w, step), if step.Stream? then Apply(x.built, step.ev) else x.built)
  }

  /** The parts the end of a read gives up to history. */
  function GivenUp(w: World, t: nat): set<RowKey> {
    set k | k in Purged(w.led.(open := w.led.open - {t})) && k.P? && k.id in w.led.content.parts && k in w.sec
  }

  // ---- lengths ----

  /** The length of a field, nothing where there is none. */
  function Length(c: Content, p: string, f: Field): nat {
    if p in c.parts && f in c.parts[p].fields then c.parts[p].fields[f].units else 0
  }

  /** A delta reaches the end of its text where it is accepted, and changes nothing elsewhere. */
  lemma DeltaLength(c: Content, p: string, f: Field, offset: int, text: string, q: string, g: Field)
    ensures Length(AfterDelta(c, p, f, offset, text), q, g)
         == if q == p && g == f && p in c.parts && offset <= Length(c, p, f)
            then Max(Length(c, p, f), offset + Units(text)) else Length(c, q, g)
  {
    hide DeltaField, UnitsExact;
    if p in c.parts {
      var cur := if f in c.parts[p].fields then c.parts[p].fields[f] else NewField("");
      DeltaFieldLength(cur, offset, text);
    }
  }

  /** An upsert keeps the longer value, a final one its own. */
  lemma UpsertLength(c: Content, part: Part, final: bool, q: string, g: Field)
    ensures Length(AfterUpsert(c, part, final), q, g)
         == if q != part.id then Length(c, q, g)
            else Max(if final then 0 else Length(c, q, g),
                     if g in StreamedFields(part.data) then Units(StreamedFields(part.data)[g]) else 0)
  {
  }

  // ---- what history stores ----

  /** The version stores the first `n` units of a field, or the part's completed message. */
  ghost predicate FieldStored(h: Rows, mid: string, p: string, f: Field, n: nat) {
    mid in h.msgs && (Completed(h.msgs[mid].data) || (p in h.parts && n <= Units(Have(h.parts[p].data, f))))
  }

  lemma FieldStoredLater(hist: seq<Rows>, gone: set<RowKey>, owner: string -> string, p: string, f: Field, n: nat, i: nat, j: nat)
    requires HistoryValid(hist, gone, owner) && !Lost(gone, owner, P(p)) && i <= j < |hist|
    requires FieldStored(hist[i], owner(p), p, f, n)
    ensures FieldStored(hist[j], owner(p), p, f, n)
  {
    if i < j {
      assert Forward(hist[i], hist[j], gone, owner);
      assert M(owner(p)) !in gone;
    }
  }

  lemma StoresLess(h: Rows, mid: string, p: string, f: Field, n: nat, m: nat)
    requires FieldStored(h, mid, p, f, n) && m <= n
    ensures FieldStored(h, mid, p, f, m)
  {
  }

  /** What a read of a page holds of a field it leaves to history; a message outside its page it does not show. */
  ghost predicate LeftHolds(h: Rows, d: Rows, mid: string, p: string, f: Field, n: nat) {
    mid in h.msgs && (mid in d.msgs ==> FieldStored(h, mid, p, f, n))
  }

  /** The newest history stores the field, and so does each page a read has still to compose. */
  ghost predicate EachHolds(hist: seq<Rows>, tickets: map<nat, Read>, mid: string, p: string, f: Field, n: nat)
    requires |hist| > 0
  {
    && FieldStored(hist[|hist| - 1], mid, p, f, n)
    && forall t :: t in tickets && tickets[t].Queried? ==>
         tickets[t].version < |hist| && LeftHolds(hist[tickets[t].version], tickets[t].page, mid, p, f, n)
  }

  lemma EachLess(hist: seq<Rows>, tickets: map<nat, Read>, mid: string, p: string, f: Field, n: nat, m: nat)
    requires |hist| > 0 && EachHolds(hist, tickets, mid, p, f, n) && m <= n
    ensures EachHolds(hist, tickets, mid, p, f, m) && EachHolds(hist, tickets, mid, p, Text, 0)
  {
  }

  // ---- what every step keeps ----

  ghost predicate Present(x: Track, owner: string -> string, p: string) {
    p in x.built.parts && !Lost(x.w.gone, owner, P(p))
  }

  /** The ledger holds a field as long as built, or history stores it for every read. */
  ghost predicate FieldKept(x: Track, owner: string -> string, p: string, f: Field)
    requires |x.w.hist| > 0
  {
    || Length(x.built, p, f) <= Length(x.w.led.content, p, f)
    || EachHolds(x.w.hist, x.w.tickets, owner(p), p, f, Length(x.built, p, f))
  }

  ghost predicate PartKept(x: Track, owner: string -> string, p: string)
    requires p in x.built.parts && |x.w.hist| > 0
  {
    && x.built.parts[p].part.messageId == owner(p)
    && (p in x.w.led.content.parts || EachHolds(x.w.hist, x.w.tickets, owner(p), p, Text, 0))
    && (forall f :: FieldKept(x, owner, p, f))
    && (p in x.w.led.content.parts && x.w.led.content.parts[p].final ==>
          forall f :: Length(x.built, p, f) <= Length(x.w.led.content, p, f))
  }

  ghost predicate MessagesKept(built: Content, owed: Content, gone: set<RowKey>) {
    forall id :: id in built.msgs && M(id) !in gone ==> id in owed.msgs && owed.msgs[id] == built.msgs[id]
  }

  ghost predicate PartsKept(x: Track, owner: string -> string)
    requires |x.w.hist| > 0
  {
    forall p :: Present(x, owner, p) ==> PartKept(x, owner, p)
  }

  ghost predicate BuiltInv(x: Track, owner: string -> string) {
    && Inv(x.w, owner) && UnitsExact(x.built) && UnitsExact(x.w.led.content)
    && MessagesKept(x.built, x.w.owed, x.w.gone) && PartsKept(x, owner)
  }

  /** A delta that lengthens what was built of a part is accepted by the ledger's own copy of it. */
  predicate Taken(x: Track, ev: Event) {
    ev.PartDelta? ==>
      || Length(Apply(x.built, ev), ev.partId, ev.field) <= Length(x.built, ev.partId, ev.field)
      || (ev.partId in x.w.led.content.parts && ev.offset <= Length(x.w.led.content, ev.partId, ev.field))
  }

  /** The ledger takes the delta, or every read finds what it builds in history. */
  ghost predicate Covered(x: Track, owner: string -> string, ev: Event)
    requires |x.w.hist| > 0
  {
    Taken(x, ev)
    || EachHolds(x.w.hist, x.w.tickets, owner(ev.partId), ev.partId, ev.field, Length(Apply(x.built, ev), ev.partId, ev.field))
  }

  // ---- carrying it over a step ----

  predicate SamePart(c: Content, d: Content, p: string) {
    (p in c.parts <==> p in d.parts) && (p in c.parts ==> c.parts[p] == d.parts[p])
  }

  /** A read still to compose queried before the step, or queries the newest history in it. */
  ghost predicate ReadsFrom(w: World, y: World, owner: string -> string) {
    && 0 < |w.hist| && w.hist <= y.hist && HistoryValid(y.hist, y.gone, owner)
    && forall t :: t in y.tickets && y.tickets[t].Queried? ==>
         || (t in w.tickets && w.tickets[t] == y.tickets[t])
         || (y.tickets[t].version == |y.hist| - 1 && PageOf(y.tickets[t].page, Latest(y), y.tickets[t].limit))
  }

  lemma StepReads(w: World, step: Step, owner: string -> string)
    requires Inv(w, owner) && Legal(w, step, owner)
    ensures ReadsFrom(w, Do(w, step), owner)
  {
    InvHistory(w, owner);
    DoKeeps(w, step, owner);
    InvHistory(Do(w, step), owner);
    QueriesMove(w, step, owner);
    hide Inv, Do, Legal, HistoryValid, PageOf;
  }

  lemma InvHistory(w: World, owner: string -> string)
    requires Inv(w, owner)
    ensures |w.hist| > 0 && HistoryValid(w.hist, w.gone, owner)
  {
  }

  lemma QueriesMove(w: World, step: Step, owner: string -> string)
    requires |w.hist| > 0 && Legal(w, step, owner)
    ensures var y := Do(w, step);
            && 0 < |w.hist| && w.hist <= y.hist
            && forall t :: t in y.tickets && y.tickets[t].Queried? ==>
                 || (t in w.tickets && w.tickets[t] == y.tickets[t])
                 || (y.tickets[t].version == |y.hist| - 1 && PageOf(y.tickets[t].page, Latest(y), y.tickets[t].limit))
  {
    hide Forward, PageOf, AfterEvent, AfterCommit, AfterPurge, Capture, Less, Merge, DropNow, OrphanNow;
  }

  lemma HoldsCarry(w: World, y: World, owner: string -> string, p: string, f: Field, n: nat)
    requires ReadsFrom(w, y, owner) && !Lost(y.gone, owner, P(p))
    requires EachHolds(w.hist, w.tickets, owner(p), p, f, n)
    ensures EachHolds(y.hist, y.tickets, owner(p), p, f, n)
  {
    hide FieldStored, HistoryValid, PageOf, Lost;
    assert y.hist[|w.hist| - 1] == w.hist[|w.hist| - 1];
    FieldStoredLater(y.hist, y.gone, owner, p, f, n, |w.hist| - 1, |y.hist| - 1);
    FieldHasMessage(Latest(y), owner(p), p, f, n);
    forall t | t in y.tickets && y.tickets[t].Queried?
      ensures y.tickets[t].version < |y.hist| && LeftHolds(y.hist[y.tickets[t].version], y.tickets[t].page, owner(p), p, f, n)
    {
      if t in w.tickets && w.tickets[t] == y.tickets[t] {
        assert y.hist[y.tickets[t].version] == w.hist[w.tickets[t].version];
      }
    }
  }

  lemma FieldHasMessage(h: Rows, mid: string, p: string, f: Field, n: nat)
    requires FieldStored(h, mid, p, f, n)
    ensures mid in h.msgs
  {
  }

  /** A step that changes neither copy of a part. */
  lemma PartCarry(x: Track, y: Track, owner: string -> string, p: string)
    requires ReadsFrom(x.w, y.w, owner) && !Lost(y.w.gone, owner, P(p))
    requires p in x.built.parts && PartKept(x, owner, p)
    requires SamePart(x.built, y.built, p) && SamePart(x.w.led.content, y.w.led.content, p)
    ensures PartKept(y, owner, p)
  {
    hide EachHolds, ReadsFrom, Lost;
    assert |x.w.hist| > 0 && |y.w.hist| > 0 by { ReadsThere(x.w, y.w, owner); }
    if p !in x.w.led.content.parts {
      HoldsCarry(x.w, y.w, owner, p, Text, 0);
    }
    forall f
      ensures FieldKept(y, owner, p, f)
      ensures Length(y.built, p, f) == Length(x.built, p, f)
      ensures Length(y.w.led.content, p, f) == Length(x.w.led.content, p, f)
    {
      assert FieldKept(x, owner, p, f);
      if Length(x.built, p, f) > Length(x.w.led.content, p, f) {
        HoldsCarry(x.w, y.w, owner, p, f, Length(x.built, p, f));
      }
    }
  }

  lemma ReadsThere(w: World, y: World, owner: string -> string)
    requires ReadsFrom(w, y, owner)
    ensures |w.hist| > 0 && |y.hist| > 0
  {
  }

  lemma HistoryThere(x: Track, owner: string -> string)
    requires BuiltInv(x, owner)
    ensures |x.w.hist| > 0
  {
  }

  lemma PresentKept(x: Track, owner: string -> string, p: string)
    requires BuiltInv(x, owner) && Present(x, owner, p)
    ensures |x.w.hist| > 0 && PartKept(x, owner, p)
  {
  }

  lemma QuietBuilt(x: Track, owner: string -> string, step: Step)
    requires BuiltInv(x, owner) && Legal(x.w, step, owner)
    requires step.Settle? || step.Begin? || step.Query? || step.TakeView? || step.Ingest?
    ensures BuiltInv(Next(x, step), owner)
  {
    DoKeeps(x.w, step, owner);
    StepReads(x.w, step, owner);
    hide Inv, Legal, UnitsExact, PartKept, MessagesKept, Lost, Capture, ReadsFrom, WholePage;
    var y := Next(x, step);
    forall p | Present(y, owner, p)
      ensures PartKept(y, owner, p)
    {
      PartCarry(x, y, owner, p);
    }
  }

  // ---- forgetting ----

  lemma UnitsLess(c: Content, ms: set<string>, ps: set<string>)
    requires UnitsExact(c)
    ensures UnitsExact(Less(c, ms, ps))
  {
  }

  /** What a step forgets is gone; the rest is as it was. */
  lemma ForgottenSame(x: Track, y: Track, owner: string -> string, ms: set<string>, ps: set<string>, p: string)
    requires Inv(x.w, owner) && Forgets(x.w, y.w, ms, ps) && !Lost(y.w.gone, owner, P(p))
    ensures SamePart(x.w.led.content, y.w.led.content, p) && !Lost(x.w.gone, owner, P(p))
  {
    hide Inv;
    assert P(p) !in KeysOf(ms, ps) && M(owner(p)) !in KeysOf(ms, ps);
    if p in x.w.led.content.parts {
      OwnedHere(x.w, owner, p);
    }
  }

  lemma OwnedHere(w: World, owner: string -> string, p: string)
    requires Inv(w, owner) && p in w.led.content.parts
    ensures w.led.content.parts[p].part.messageId == owner(p)
  {
  }

  lemma ForgetBuilt(x: Track, y: Track, owner: string -> string, ms: set<string>, ps: set<string>)
    requires BuiltInv(x, owner) && Forgets(x.w, y.w, ms, ps) && Inv(y.w, owner) && ReadsFrom(x.w, y.w, owner) && y.built == x.built
    ensures BuiltInv(y, owner)
  {
    UnitsLess(x.w.led.content, ms, ps);
    MessagesLess(x, owner, ms, ps, y);
    hide Inv, UnitsExact, PartKept, Less, Lost, MessagesKept, ReadsFrom;
    ReadsThere(x.w, y.w, owner);
    forall p | Present(y, owner, p)
      ensures PartKept(y, owner, p)
    {
      ForgottenSame(x, y, owner, ms, ps, p);
      PartCarry(x, y, owner, p);
    }
  }

  lemma MessagesLess(x: Track, owner: string -> string, ms: set<string>, ps: set<string>, y: Track)
    requires MessagesKept(x.built, x.w.owed, x.w.gone) && Forgets(x.w, y.w, ms, ps)
    ensures MessagesKept(x.built, y.w.owed, y.w.gone)
  {
    forall id | id in x.built.msgs && M(id) !in y.w.gone
      ensures id in y.w.owed.msgs && y.w.owed.msgs[id] == x.built.msgs[id]
    {
      assert M(id) !in KeysOf(ms, ps);
    }
  }

  lemma EvictBuilt(x: Track, owner: string -> string, ms: set<string>, ps: set<string>)
    requires BuiltInv(x, owner)
    ensures BuiltInv(Next(x, Evict(ms, ps)), owner)
  {
    HistoryThere(x, owner);
    EvictKeeps(x.w, owner, ms, ps);
    StepReads(x.w, Evict(ms, ps), owner);
    hide Inv, UnitsExact, PartsKept, MessagesKept, Less, ReadsFrom;
    ForgetBuilt(x, Next(x, Evict(ms, ps)), owner, ms, ps);
  }

  lemma CommitBuilt(x: Track, owner: string -> string, t: nat)
    requires BuiltInv(x, owner) && t in x.w.tickets && x.w.tickets[t].Captured?
    ensures BuiltInv(Next(x, Commit(t)), owner)
  {
    HistoryThere(x, owner);
    CommitKeeps(x.w, owner, t);
    StepReads(x.w, Commit(t), owner);
    hide Inv, UnitsExact, PartsKept, MessagesKept, Less, DropNow, OrphanNow, ConfirmNow, ClearsNow, ReadsFrom;
    var r := x.w.tickets[t];
    ForgetBuilt(x, Next(x, Commit(t)), owner, DropNow(x.w.led, r.view, r.page), OrphanNow(x.w.led, r.view, r.page));
  }

  // ---- giving parts up ----

  lemma GivenUpStored(w: World, owner: string -> string, t: nat, p: string)
    requires Inv(w, owner) && t in w.tickets && P(p) in GivenUp(w, t) && !Lost(w.gone, owner, P(p))
    ensures var n := w.sec[P(p)];
            && n < |w.hist| && (forall f :: FieldStored(w.hist[n], owner(p), p, f, Length(w.led.content, p, f)))
            && (forall u :: u in w.tickets && u != t ==> n <= w.tickets[u].floor)
    requires UnitsExact(w.led.content)
  {
    assert Holds(w.led.content, P(p)) && SameRow(w.led.content, w.owed, P(p));
    assert SecuredKey(w, P(p));
    var n, lp := w.sec[P(p)], w.led.content.parts[p];
    assert Stored(w.hist[n], w.owed, P(p)) && lp.part.messageId == owner(p);
    forall f
      ensures FieldStored(w.hist[n], owner(p), p, f, Length(w.led.content, p, f))
    {
      if f in lp.fields {
        assert FieldExact(lp.fields[f]);
      }
    }
    forall u | u in w.tickets && u != t
      ensures n <= w.tickets[u].floor
    {
      assert u in w.led.open - {t};
      assert LeftTo(w.led, P(p), u);
    }
  }

  lemma PurgedPart(w: World, t: nat, now: int, p: string)
    requires |w.hist| > 0
    ensures var l, y := w.led, Do(w, End(t, now)).led;
            && (P(p) !in GivenUp(w, t) && (p in l.content.parts && P(p) in l.confirmed ==> P(p) in w.sec) ==>
                  SamePart(l.content, y.content, p))
            && (P(p) in GivenUp(w, t) ==> p !in y.content.parts && P(p) !in y.confirmed)
            && (P(p) in y.confirmed ==> P(p) in l.confirmed)
  {
    PurgeRow(w.led.(open := w.led.open - {t}), now, P(p));
    hide AfterPurge;
  }

  lemma ConfirmedSecured(w: World, owner: string -> string, p: string)
    requires Inv(w, owner) && p in w.led.content.parts && P(p) in w.led.confirmed
    ensures P(p) in w.sec
  {
    assert Holds(w.led.content, P(p)) && Holds(w.owed, P(p));
    assert SecuredKey(w, P(p));
  }

  /** A part given up is stored as long as the ledger held it for every read still open. */
  lemma GivenUpHolds(w: World, owner: string -> string, t: nat, now: int, p: string, f: Field)
    requires Inv(w, owner) && UnitsExact(w.led.content) && t in w.tickets && P(p) in GivenUp(w, t) && !Lost(w.gone, owner, P(p))
    ensures var y := Do(w, End(t, now));
            |y.hist| > 0 && EachHolds(y.hist, y.tickets, owner(p), p, f, Length(w.led.content, p, f))
  {
    GivenUpStored(w, owner, t, p);
    EndFrame(w, t, now);
    EachSince(w, owner, t, p, f, w.sec[P(p)], Length(w.led.content, p, f));
    hide Do;
  }

  /** What a version stores that no other open read predates, each of them holds. */
  lemma EachSince(w: World, owner: string -> string, t: nat, p: string, f: Field, n: nat, m: nat)
    requires Inv(w, owner) && n < |w.hist| && !Lost(w.gone, owner, P(p)) && FieldStored(w.hist[n], owner(p), p, f, m)
    requires forall u :: u in w.tickets && u != t ==> n <= w.tickets[u].floor
    ensures EachHolds(w.hist, w.tickets - {t}, owner(p), p, f, m)
  {
    hide OwedValid, Secured, ViewsValid, FieldStored, HistoryValid, PageOf, Lost;
    FieldStoredLater(w.hist, w.gone, owner, p, f, m, n, |w.hist| - 1);
    forall u | u in w.tickets && u != t && w.tickets[u].Queried?
      ensures w.tickets[u].version < |w.hist| && LeftHolds(w.hist[w.tickets[u].version], w.tickets[u].page, owner(p), p, f, m)
    {
      FieldStoredLater(w.hist, w.gone, owner, p, f, m, n, w.tickets[u].version);
      FieldHasMessage(w.hist[w.tickets[u].version], owner(p), p, f, m);
    }
  }

  lemma GivenUpKept(x: Track, owner: string -> string, t: nat, now: int, p: string)
    requires BuiltInv(x, owner) && t in x.w.tickets && P(p) in GivenUp(x.w, t) && Present(x, owner, p)
    ensures |x.w.hist| > 0 && |Next(x, End(t, now)).w.hist| > 0 && PartKept(Next(x, End(t, now)), owner, p)
  {
    PresentKept(x, owner, p);
    PurgedPart(x.w, t, now, p);
    StepReads(x.w, End(t, now), owner);
    EndFrame(x.w, t, now);
    hide Inv, UnitsExact, MessagesKept, PartsKept, EachHolds, GivenUp, Do, ReadsFrom, Lost;
    var y := Next(x, End(t, now));
    forall f
      ensures FieldKept(y, owner, p, f) && EachHolds(y.w.hist, y.w.tickets, owner(p), p, Text, 0)
    {
      assert FieldKept(x, owner, p, f);
      BuiltUnits(x, owner);
      GivenUpHolds(x.w, owner, t, now, p, f);
      var m := Length(x.built, p, f);
      EachLess(y.w.hist, y.w.tickets, owner(p), p, f, Length(x.w.led.content, p, f), if m <= Length(x.w.led.content, p, f) then m else 0);
      if m > Length(x.w.led.content, p, f) {
        HoldsCarry(x.w, y.w, owner, p, f, m);
      }
    }
    assert FieldKept(y, owner, p, Text);
  }

  lemma BuiltUnits(x: Track, owner: string -> string)
    requires BuiltInv(x, owner)
    ensures Inv(x.w, owner) && UnitsExact(x.w.led.content)
  {
  }

  lemma EndBuilt(x: Track, owner: string -> string, t: nat, now: int)
    requires BuiltInv(x, owner) && t in x.w.tickets
    ensures BuiltInv(Next(x, End(t, now)), owner)
  {
    HistoryThere(x, owner);
    EndKeeps(x.w, owner, t, now);
    UnitsPurged(x.w.led.(open := x.w.led.open - {t}), now);
    hide Inv, UnitsExact, PartKept, MessagesKept, Lost, AfterEnd, GivenUp;
    var y := Next(x, End(t, now));
    forall p | Present(y, owner, p)
      ensures PartKept(y, owner, p)
    {
      assert Present(x, owner, p);
      if P(p) in GivenUp(x.w, t) {
        GivenUpKept(x, owner, t, now, p);
      } else {
        UntouchedPart(x, owner, t, now, p);
      }
    }
  }

  lemma UntouchedPart(x: Track, owner: string -> string, t: nat, now: int, p: string)
    requires BuiltInv(x, owner) && t in x.w.tickets && Present(x, owner, p) && P(p) !in GivenUp(x.w, t)
    ensures |x.w.hist| > 0 && |Next(x, End(t, now)).w.hist| > 0 && PartKept(Next(x, End(t, now)), owner, p)
  {
    PresentKept(x, owner, p);
    PurgedPart(x.w, t, now, p);
    if p in x.w.led.content.parts && P(p) in x.w.led.confirmed {
      ConfirmedSecured(x.w, owner, p);
    }
    StepReads(x.w, End(t, now), owner);
    EndFrame(x.w, t, now);
    hide Inv, UnitsExact, MessagesKept, PartsKept, GivenUp, PartKept, Lost, Do, ReadsFrom;
    PartCarry(x, Next(x, End(t, now)), owner, p);
  }

  lemma EndFrame(w: World, t: nat, now: int)
    requires |w.hist| > 0
    ensures var x := Do(w, End(t, now)); x.hist == w.hist && x.tickets == w.tickets - {t} && x.gone == w.gone
  {
  }

  lemma UnitsPurged(l: LedgerState, now: int)
    requires UnitsExact(l.content)
    ensures UnitsExact(AfterPurge(l, now).content)
  {
  }

  // ---- the stream ----

  /** What an event does not name stays, unless the event removes it. */
  lemma ApplyPart(c: Content, ev: Event, p: string)
    requires !(ev.PartDelta? && ev.partId == p) && !(ev.PartUpserted? && ev.part.id == p)
    requires !(ev.PartRemoved? && ev.removedPartId == p)
    requires ev.MessageRemoved? && p in c.parts ==> c.parts[p].part.messageId != ev.messageId
    ensures SamePart(c, Apply(c, ev), p)
  {
  }

  lemma StreamFrame(x: Track, ev: Event, now: int)
    requires |x.w.hist| > 0 && !ev.HistoryRewritten?
    ensures var y := Next(x, Stream(ev, now));
            && y.built == Apply(x.built, ev) && y.w.led.content == Apply(x.w.led.content, ev)
            && y.w.hist == x.w.hist && y.w.tickets == x.w.tickets && y.w.sec == x.w.sec
            && y.w.gone == x.w.gone + KeysOf(Removals(ev).0, Removals(ev).1)
  {
    EventMarks(x.w.led, ev, now, M(""));
    hide AfterEvent, Less, Merge, Apply;
  }

  /** A field is at least as long on the ledger's side as built, or was not lengthened. */
  predicate Follows(x: Track, y: Track, p: string, f: Field) {
    || Length(y.built, p, f) <= Length(y.w.led.content, p, f)
    || (Length(y.built, p, f) == Length(x.built, p, f) && Length(x.w.led.content, p, f) <= Length(y.w.led.content, p, f))
  }

  lemma DeltaFollows(x: Track, ev: Event, now: int, f: Field)
    requires |x.w.hist| > 0 && ev.PartDelta? && Taken(x, ev)
    ensures Follows(x, Next(x, Stream(ev, now)), ev.partId, f)
  {
    hide AfterEvent, Merge, Less, Length, AfterDelta, UnitsExact, Next;
    StreamFrame(x, ev, now);
    DeltaLength(x.built, ev.partId, ev.field, ev.offset, ev.text, ev.partId, f);
    DeltaLength(x.w.led.content, ev.partId, ev.field, ev.offset, ev.text, ev.partId, f);
    DeltaLength(x.built, ev.partId, ev.field, ev.offset, ev.text, ev.partId, ev.field);
  }

  lemma UpsertFollows(x: Track, ev: Event, now: int, f: Field)
    requires |x.w.hist| > 0 && ev.PartUpserted?
    ensures var y := Next(x, Stream(ev, now));
            Follows(x, y, ev.part.id, f)
            && (ev.final ==> Length(y.built, ev.part.id, f) <= Length(y.w.led.content, ev.part.id, f))
  {
    hide AfterEvent, Merge, Less, Length, AfterUpsert, Next;
    StreamFrame(x, ev, now);
    UpsertLength(x.built, ev.part, ev.final, ev.part.id, f);
    UpsertLength(x.w.led.content, ev.part, ev.final, ev.part.id, f);
  }

  /** What follows stays kept. */
  lemma FollowsKept(x: Track, y: Track, owner: string -> string, p: string, f: Field)
    requires |x.w.hist| > 0 && Follows(x, y, p, f) && y.w.hist == x.w.hist && y.w.tickets == x.w.tickets
    requires p !in x.built.parts || FieldKept(x, owner, p, f)
    ensures FieldKept(y, owner, p, f)
  {
    hide EachHolds;
    assert p !in x.built.parts ==> Length(x.built, p, f) == 0;
  }

  lemma NamedSides(x: Track, ev: Event, p: string)
    requires (ev.PartDelta? && ev.partId == p) || (ev.PartUpserted? && ev.part.id == p)
    requires p in Apply(x.built, ev).parts
    ensures ev.PartDelta? ==>
              && p in x.built.parts && Apply(x.built, ev).parts[p].part == x.built.parts[p].part
              && (p in Apply(x.w.led.content, ev).parts <==> p in x.w.led.content.parts)
              && (p in x.w.led.content.parts ==> Apply(x.w.led.content, ev).parts[p].final == x.w.led.content.parts[p].final)
    ensures ev.PartUpserted? ==>
              && Apply(x.built, ev).parts[p].part.messageId == ev.part.messageId
              && p in Apply(x.w.led.content, ev).parts && Apply(x.w.led.content, ev).parts[p].final == ev.final
  {
  }

  /** The part an event names stays kept. */
  lemma NamedPart(x: Track, owner: string -> string, ev: Event, now: int, p: string)
    requires BuiltInv(x, owner) && Legal(x.w, Stream(ev, now), owner) && Taken(x, ev)
    requires (ev.PartDelta? && ev.partId == p) || (ev.PartUpserted? && ev.part.id == p)
    requires p in Apply(x.built, ev).parts && !Lost(x.w.gone, owner, P(p))
    ensures |x.w.hist| > 0 && |Next(x, Stream(ev, now)).w.hist| > 0
    ensures p in Next(x, Stream(ev, now)).built.parts && PartKept(Next(x, Stream(ev, now)), owner, p)
  {
    hide Inv, MessagesKept, EachHolds, FieldKept, UnitsExact, AfterEvent, Merge, Less, Length, Apply, Next, Taken, Lost;
    HistoryThere(x, owner);
    var y := Next(x, Stream(ev, now));
    StreamFrame(x, ev, now);
    NamedSides(x, ev, p);
    assert p in x.built.parts ==> PartKept(x, owner, p) by { assert p in x.built.parts ==> Present(x, owner, p); }
    forall f
      ensures FieldKept(y, owner, p, f)
      ensures p in y.w.led.content.parts && y.w.led.content.parts[p].final ==> Length(y.built, p, f) <= Length(y.w.led.content, p, f)
    {
      if ev.PartDelta? {
        DeltaFollows(x, ev, now, f);
      } else {
        UpsertFollows(x, ev, now, f);
      }
      FollowsKept(x, y, owner, p, f);
    }
  }

  /** So does the part of a delta the ledger refuses and history stores. */
  lemma StoredPartKept(x: Track, owner: string -> string, ev: Event, now: int)
    requires BuiltInv(x, owner) && Legal(x.w, Stream(ev, now), owner) && !Taken(x, ev) && |x.w.hist| > 0 && Covered(x, owner, ev)
    ensures |Next(x, Stream(ev, now)).w.hist| > 0
    ensures ev.partId in Next(x, Stream(ev, now)).built.parts && PartKept(Next(x, Stream(ev, now)), owner, ev.partId)
  {
    hide Inv, MessagesKept, EachHolds, UnitsExact, AfterEvent, Merge, Less, Length, Apply, Next, Lost;
    var y, p := Next(x, Stream(ev, now)), ev.partId;
    StreamFrame(x, ev, now);
    DeltaOwner(x.w, owner, ev, now);
    LostKept(x, owner, ev);
    forall f
      ensures FieldKept(y, owner, p, f)
    {
      LostLengths(x, owner, ev, f);
    }
    LostLengths(x, owner, ev, ev.field);
  }

  lemma DeltaOwner(w: World, owner: string -> string, ev: Event, now: int)
    requires |w.hist| > 0 && ev.PartDelta? && Legal(w, Stream(ev, now), owner)
    ensures !Lost(w.gone, owner, P(ev.partId))
  {
    assert P(ev.partId) in Named(ev);
  }

  lemma StreamPart(x: Track, owner: string -> string, ev: Event, now: int, p: string)
    requires BuiltInv(x, owner) && Legal(x.w, Stream(ev, now), owner) && |x.w.hist| > 0 && Covered(x, owner, ev)
    requires Present(Next(x, Stream(ev, now)), owner, p)
    ensures |Next(x, Stream(ev, now)).w.hist| > 0 && PartKept(Next(x, Stream(ev, now)), owner, p)
  {
    StepReads(x.w, Stream(ev, now), owner);
    hide Inv, MessagesKept, EachHolds, UnitsExact, AfterEvent, Merge, Less, Taken, PartKept, Apply, Covered, ReadsFrom;
    var y := Next(x, Stream(ev, now));
    StreamFrame(x, ev, now);
    if (ev.PartDelta? && ev.partId == p) || (ev.PartUpserted? && ev.part.id == p) {
      if Taken(x, ev) {
        NamedPart(x, owner, ev, now, p);
      } else {
        RefusedNamed(x, ev);
        StoredPartKept(x, owner, ev, now);
      }
    } else {
      Unremoved(x, owner, ev, now, p);
      PartCarry(x, y, owner, p);
    }
  }

  lemma RefusedNamed(x: Track, ev: Event)
    requires !Taken(x, ev)
    ensures ev.PartDelta?
  {
  }

  /** A part that is there after an event that does not name it was there as it is. */
  lemma Unremoved(x: Track, owner: string -> string, ev: Event, now: int, p: string)
    requires BuiltInv(x, owner) && Legal(x.w, Stream(ev, now), owner)
    requires !(ev.PartDelta? && ev.partId == p) && !(ev.PartUpserted? && ev.part.id == p)
    requires |x.w.hist| > 0 && Present(Next(x, Stream(ev, now)), owner, p)
    ensures Present(x, owner, p) && SamePart(x.built, Apply(x.built, ev), p)
    ensures SamePart(x.w.led.content, Apply(x.w.led.content, ev), p)
  {
    hide Inv, MessagesKept, EachHolds, UnitsExact, AfterEvent, Merge, Less;
    StreamFrame(x, ev, now);
    assert !(ev.PartRemoved? && ev.removedPartId == p) by {
      assert ev.PartRemoved? ==> P(ev.removedPartId) in KeysOf(Removals(ev).0, Removals(ev).1);
    }
    assert !(ev.MessageRemoved? && ev.messageId == owner(p)) by {
      assert ev.MessageRemoved? ==> M(ev.messageId) in KeysOf(Removals(ev).0, Removals(ev).1);
    }
    assert p in x.built.parts;
    assert PartKept(x, owner, p);
    if p in x.w.led.content.parts {
      OwnedHere(x.w, owner, p);
    }
    ApplyPart(x.built, ev, p);
    ApplyPart(x.w.led.content, ev, p);
  }

  /** What was built of messages is owed, whatever the deltas. */
  lemma StreamMessages(x: Track, owner: string -> string, ev: Event, now: int)
    requires |x.w.hist| > 0 && MessagesKept(x.built, x.w.owed, x.w.gone) && OwedValid(x.w, owner) && Legal(x.w, Stream(ev, now), owner)
    ensures var y := Next(x, Stream(ev, now)); MessagesKept(y.built, y.w.owed, y.w.gone)
  {
    hide AfterEvent, OwedValid;
    var y := Next(x, Stream(ev, now));
    StreamFrame(x, ev, now);
    forall id | id in y.built.msgs && M(id) !in y.w.gone
      ensures id in y.w.owed.msgs && y.w.owed.msgs[id] == y.built.msgs[id]
    {
      StreamMessage(x, owner, ev, now, id);
    }
  }

  lemma StreamMessage(x: Track, owner: string -> string, ev: Event, now: int, id: string)
    requires |x.w.hist| > 0
    requires MessagesKept(x.built, x.w.owed, x.w.gone) && OwedValid(x.w, owner) && Legal(x.w, Stream(ev, now), owner)
    requires var y := Next(x, Stream(ev, now)); id in y.built.msgs && M(id) !in y.w.gone
    ensures var y := Next(x, Stream(ev, now)); id in y.w.owed.msgs && y.w.owed.msgs[id] == y.built.msgs[id]
  {
    hide AfterEvent, Less, Merge, Lost, RevOf;
    var y := Next(x, Stream(ev, now));
    var (ms, ps) := Removals(ev);
    StreamFrame(x, ev, now);
    EventMarks(x.w.led, ev, now, M(id));
    LessRow(x.w.owed, ms, ps, M(id));
    MergeRow(Less(x.w.owed, ms, ps), Apply(x.w.led.content, ev), M(id));
    if ev.MessageUpserted? && ev.message.id == id {
      assert Holds(y.w.led.content, M(id));
    } else {
      assert id in x.built.msgs && y.built.msgs[id] == x.built.msgs[id];
      assert Holds(x.w.owed, M(id));
      assert M(id) !in KeysOf(ms, ps);
      assert Holds(Apply(x.w.led.content, ev), M(id)) ==>
          Holds(x.w.led.content, M(id)) && SameRow(x.w.led.content, Apply(x.w.led.content, ev), M(id));
    }
  }

  lemma StreamBuilt(x: Track, owner: string -> string, ev: Event, now: int)
    requires BuiltInv(x, owner) && Legal(x.w, Stream(ev, now), owner) && |x.w.hist| > 0 && Covered(x, owner, ev)
    ensures BuiltInv(Next(x, Stream(ev, now)), owner)
  {
    var y := Next(x, Stream(ev, now));
    StreamKeeps(x.w, owner, ev, now);
    StreamFrame(x, ev, now);
    ApplyUnits(x.built, ev);
    ApplyUnits(x.w.led.content, ev);
    StreamMessages(x, owner, ev, now);
    forall p | Present(y, owner, p)
      ensures PartKept(y, owner, p)
    {
      StreamPart(x, owner, ev, now, p);
    }
    hide Inv, UnitsExact, MessagesKept, PartKept;
  }

  lemma NextBuilt(x: Track, step: Step, owner: string -> string)
    requires BuiltInv(x, owner) && |x.w.hist| > 0 && Legal(x.w, step, owner) && (step.Stream? ==> Covered(x, owner, step.ev))
    ensures BuiltInv(Next(x, step), owner)
  {
    hide BuiltInv, Next, Covered;
    match step
    case Stream(ev, now) => StreamBuilt(x, owner, ev, now);
    case Commit(t) => CommitBuilt(x, owner, t);
    case End(t, now) => EndBuilt(x, owner, t, now);
    case Evict(ms, ps) => EvictBuilt(x, owner, ms, ps);
    case _ => QuietBuilt(x, owner, step);
  }

  // ---- what the ledger refuses ----

  /** Where the ledger does not take a delta it holds less, or nothing, and each read finds the part in history. */
  lemma LostKept(x: Track, owner: string -> string, ev: Event)
    requires BuiltInv(x, owner) && !Taken(x, ev) && !Lost(x.w.gone, owner, P(ev.partId))
    ensures |x.w.hist| > 0 && Present(x, owner, ev.partId)
    ensures EachHolds(x.w.hist, x.w.tickets, owner(ev.partId), ev.partId, Text, 0)
    ensures ev.partId in x.w.led.content.parts ==>
              !x.w.led.content.parts[ev.partId].final && x.w.led.content.parts[ev.partId].part.messageId == owner(ev.partId)
    ensures Length(x.w.led.content, ev.partId, ev.field) < ev.offset || ev.partId !in x.w.led.content.parts
    ensures ev.offset <= Length(x.built, ev.partId, ev.field)
    ensures x.built.parts[ev.partId].part.messageId == owner(ev.partId)
  {
    hide MessagesKept, UnitsExact, AfterDelta, Length, EachHolds, Inv;
    HistoryThere(x, owner);
    var p, f := ev.partId, ev.field;
    DeltaLength(x.built, p, f, ev.offset, ev.text, p, f);
    LostIn(x.built, ev);
    assert PartKept(x, owner, p) && FieldKept(x, owner, p, f);
    if p in x.w.led.content.parts {
      BuiltUnits(x, owner);
      OwnedHere(x.w, owner, p);
      EachLess(x.w.hist, x.w.tickets, owner(p), p, f, Length(x.built, p, f), 0);
    }
  }

  lemma LostIn(c: Content, ev: Event)
    requires ev.PartDelta? && Length(c, ev.partId, ev.field) < Length(Apply(c, ev), ev.partId, ev.field)
    ensures ev.partId in c.parts
  {
  }

  /** A lost delta lengthens its field of what was built and nothing else. */
  lemma LostLengths(x: Track, owner: string -> string, ev: Event, g: Field)
    requires BuiltInv(x, owner) && !Taken(x, ev) && !Lost(x.w.gone, owner, P(ev.partId))
    ensures |x.w.hist| > 0
    ensures var p, b, c := ev.partId, Apply(x.built, ev), Apply(x.w.led.content, ev);
            && p in b.parts && b.parts[p].part.messageId == owner(p)
            && (p in c.parts <==> p in x.w.led.content.parts)
            && (p in c.parts ==> !c.parts[p].final && c.parts[p].part.messageId == owner(p))
            && Length(c, p, ev.field) < Length(b, p, ev.field)
            && (g != ev.field ==>
                  Length(b, p, g) <= Length(c, p, g) || EachHolds(x.w.hist, x.w.tickets, owner(p), p, g, Length(b, p, g)))
  {
    var p, f := ev.partId, ev.field;
    LostKept(x, owner, ev);
    DeltaLength(x.built, p, f, ev.offset, ev.text, p, f);
    DeltaLength(x.w.led.content, p, f, ev.offset, ev.text, p, f);
    DeltaLength(x.built, p, f, ev.offset, ev.text, p, g);
    DeltaLength(x.w.led.content, p, f, ev.offset, ev.text, p, g);
    NamedSides(x, ev, p);
    PresentKept(x, owner, p);
    assert FieldKept(x, owner, p, g);
    hide Inv, MessagesKept, UnitsExact, Length, EachHolds;
  }

  // ---- what a composed read holds of what was built ----

  lemma LongestField(d: PartData, fields: map<Field, string>, f: Field)
    ensures Units(Have(WithFields(d, fields), f)) <= Max(Units(Have(d, f)), if f in fields then Units(fields[f]) else 0)
  {
    UnitsZero("");
  }

  /** Where each field is captured or stored as long as it was built, the read shows the part. */
  lemma PartCovered(b: Content, v: LedgerView, d: Rows, h: Rows, limit: nat, owner: string -> string, p: string)
    requires PageOf(d, h, limit) && Owned(h.parts, owner) && UnitsExact(b) && UnitsExact(v.content)
    requires p in b.parts && b.parts[p].part.messageId == owner(p) && P(p) !in v.removed && M(owner(p)) !in v.removed
    requires p in v.content.parts || LeftHolds(h, d, owner(p), p, Text, 0)
    requires forall f :: Length(b, p, f) <= Length(v.content, p, f) || LeftHolds(h, d, owner(p), p, f, Length(b, p, f))
    requires p in v.content.parts ==> v.content.parts[p].part.messageId == owner(p)
    requires p in v.content.parts && v.content.parts[p].final ==> forall f :: Length(b, p, f) <= Length(v.content, p, f)
    ensures PartShown(b, v, d, h, limit, p)
  {
    hide DroppedMsgs, OverlayMsgs, Length, OverlayPart;
    var r, mid := Compose(v, d, limit), owner(p);
    if mid in r.msgs && (mid in h.msgs ==> mid in d.msgs) && !CompletedIn(d, mid) {
      forall f | f in b.parts[p].fields
        ensures p in r.parts && Units(b.parts[p].fields[f].b) <= Units(Have(r.parts[p].data, f))
      {
        FieldShown(b, v, d, h, limit, owner, p, f);
      }
      assert p in r.parts by { PartThere(v, d, h, limit, owner, p); }
    }
  }

  lemma PartThere(v: LedgerView, d: Rows, h: Rows, limit: nat, owner: string -> string, p: string)
    requires PageOf(d, h, limit) && Owned(h.parts, owner) && P(p) !in v.removed && M(owner(p)) !in v.removed
    requires p in v.content.parts || FieldStored(h, owner(p), p, Text, 0)
    requires p in v.content.parts ==> v.content.parts[p].part.messageId == owner(p)
    requires owner(p) in Compose(v, d, limit).msgs && (owner(p) in h.msgs ==> owner(p) in d.msgs) && !CompletedIn(d, owner(p))
    ensures p in Compose(v, d, limit).parts
  {
    hide DroppedMsgs, OverlayMsgs, OverlayPart;
  }

  /** A stored part of the page stays in the read, no shorter than stored or than captured. */
  lemma FieldShown(b: Content, v: LedgerView, d: Rows, h: Rows, limit: nat, owner: string -> string, p: string, f: Field)
    requires PageOf(d, h, limit) && Owned(h.parts, owner) && UnitsExact(b) && UnitsExact(v.content)
    requires p in b.parts && f in b.parts[p].fields && P(p) !in v.removed && M(owner(p)) !in v.removed
    requires Length(b, p, f) <= Length(v.content, p, f) || FieldStored(h, owner(p), p, f, Length(b, p, f))
    requires p in v.content.parts || FieldStored(h, owner(p), p, Text, 0)
    requires p in v.content.parts ==> v.content.parts[p].part.messageId == owner(p)
    requires p in v.content.parts && v.content.parts[p].final ==> forall g :: Length(b, p, g) <= Length(v.content, p, g)
    requires owner(p) in Compose(v, d, limit).msgs && (owner(p) in h.msgs ==> owner(p) in d.msgs) && !CompletedIn(d, owner(p))
    ensures var r := Compose(v, d, limit); p in r.parts && Units(b.parts[p].fields[f].b) <= Units(Have(r.parts[p].data, f))
  {
    hide DroppedMsgs, OverlayMsgs, UnitsExact, WithFields, Units, Have;
    PartThere(v, d, h, limit, owner, p);
    LengthUnits(b, p, f);
    var e := WithoutRemoved(v, d);
    if p in v.content.parts {
      LengthUnits(v.content, p, f);
      var lp := v.content.parts[p];
      FieldOverlaid(lp, StoredPart(e, p), f);
    }
  }

  lemma LengthUnits(c: Content, p: string, f: Field)
    requires UnitsExact(c)
    ensures Length(c, p, f) == if p in c.parts && f in c.parts[p].fields then Units(c.parts[p].fields[f].b) else 0
  {
    assert p in c.parts && f in c.parts[p].fields ==> FieldExact(c.parts[p].fields[f]);
  }

  lemma FieldOverlaid(lp: LivePart, stored: Option<Part>, f: Field)
    ensures f in lp.fields ==> Units(lp.fields[f].b) <= Units(Have(OverlayPart(lp, stored).data, f))
    ensures stored.Some? && !lp.final ==> Units(Have(stored.value.data, f)) <= Units(Have(OverlayPart(lp, stored).data, f))
  {
    hide WithFields, Units, Have, Covers;
    RenderKeeps(lp.part.data, Values(lp.fields), f);
    if stored.Some? {
      RenderKeeps(stored.value.data, Values(lp.fields), f);
    }
  }

  /** A read that queried shows the part as it was built. */
  ghost predicate ReadShows(x: Track, t: nat, p: string)
    requires t in x.w.tickets && x.w.tickets[t].Queried? && x.w.tickets[t].version < |x.w.hist| && p in x.built.parts
  {
    var r := x.w.tickets[t];
    PartShown(x.built, Capture(x.w.led, t), r.page, x.w.hist[r.version], r.limit, p)
  }

  /** What a read captures or leaves to history covers what was built of a part. */
  lemma BuiltPartHeld(x: Track, owner: string -> string, t: nat, p: string)
    requires BuiltInv(x, owner) && t in x.w.tickets && x.w.tickets[t].Queried? && Present(x, owner, p)
    ensures x.w.tickets[t].version < |x.w.hist| && ReadShows(x, t, p)
  {
    hide PartShown, MessagesKept, Stored, Secured, ViewsValid, FieldStored, EachHolds, Length, UnitsExact, LeftHolds;
    var r, v := x.w.tickets[t], Capture(x.w.led, t);
    var h := x.w.hist[r.version];
    assert PartKept(x, owner, p);
    NotRemoved(x.w, owner, p);
    UnitsCaptured(x.w.led, t);
    forall f
      ensures Length(x.built, p, f) <= Length(v.content, p, f) || LeftHolds(h, r.page, owner(p), p, f, Length(x.built, p, f))
    {
      FieldCaptured(x, owner, t, p, f);
    }
    PresentCaptured(x, owner, t, p);
    assert p in v.content.parts ==> v.content.parts[p] == x.w.led.content.parts[p];
    if p in v.content.parts {
      CapturedLengths(x.w.led, t, p);
    }
    if p in x.w.led.content.parts {
      OwnedHere(x.w, owner, p);
    }
    hide Capture, FieldKept, PageOf, HistoryValid;
    PartCovered(x.built, v, r.page, h, r.limit, owner, p);
  }

  lemma CapturedLengths(l: LedgerState, t: nat, p: string)
    requires p in Capture(l, t).content.parts
    ensures forall f :: Length(Capture(l, t).content, p, f) == Length(l.content, p, f)
  {
  }

  lemma NotRemoved(w: World, owner: string -> string, p: string)
    requires Inv(w, owner) && !Lost(w.gone, owner, P(p))
    ensures P(p) !in w.led.removed && M(owner(p)) !in w.led.removed
  {
  }

  lemma UnitsCaptured(l: LedgerState, t: nat)
    requires UnitsExact(l.content)
    ensures UnitsExact(Capture(l, t).content)
  {
  }

  /** A field the read does not capture as long as built, the history it queried holds for it. */
  lemma FieldCaptured(x: Track, owner: string -> string, t: nat, p: string, f: Field)
    requires BuiltInv(x, owner) && t in x.w.tickets && x.w.tickets[t].Queried? && Present(x, owner, p)
    ensures var r, v := x.w.tickets[t], Capture(x.w.led, t);
            r.version < |x.w.hist|
            && (|| Length(x.built, p, f) <= Length(v.content, p, f)
                || LeftHolds(x.w.hist[r.version], r.page, owner(p), p, f, Length(x.built, p, f)))
  {
    hide MessagesKept, Secured, ViewsValid, UnitsExact, PageOf, Forward;
    var r, v := x.w.tickets[t], Capture(x.w.led, t);
    assert PartKept(x, owner, p) && FieldKept(x, owner, p, f);
    var n := Length(x.built, p, f);
    if n <= Length(x.w.led.content, p, f) {
      if p in x.w.led.content.parts && p !in v.content.parts {
        LeftFields(x.w, owner, t, p, f);
        StoresLess(x.w.hist[r.version], owner(p), p, f, Length(x.w.led.content, p, f), n);
      }
    }
  }

  lemma LeftFields(w: World, owner: string -> string, t: nat, p: string, f: Field)
    requires Inv(w, owner) && UnitsExact(w.led.content) && t in w.tickets && w.tickets[t].Queried?
    requires p in w.led.content.parts && p !in Capture(w.led, t).content.parts
    ensures FieldStored(w.hist[w.tickets[t].version], owner(p), p, f, Length(w.led.content, p, f))
  {
    hide Secured, ViewsValid, PageOf, Forward;
    assert Holds(w.led.content, P(p)) && SameRow(w.led.content, w.owed, P(p));
    LeftStored(w, owner, t, P(p));
    LengthUnits(w.led.content, p, f);
    hide HistoryValid, UnitsExact;
  }

  lemma PresentCaptured(x: Track, owner: string -> string, t: nat, p: string)
    requires BuiltInv(x, owner) && t in x.w.tickets && x.w.tickets[t].Queried? && Present(x, owner, p)
    ensures var r := x.w.tickets[t];
            r.version < |x.w.hist|
            && (p in Capture(x.w.led, t).content.parts || LeftHolds(x.w.hist[r.version], r.page, owner(p), p, Text, 0))
  {
    hide MessagesKept, Secured, ViewsValid, UnitsExact, PageOf, Forward;
    var r := x.w.tickets[t];
    assert PartKept(x, owner, p);
    if p in x.w.led.content.parts {
      if p !in Capture(x.w.led, t).content.parts {
        LeftFields(x.w, owner, t, p, Text);
        StoresLess(x.w.hist[r.version], owner(p), p, Text, Length(x.w.led.content, p, Text), 0);
      }
    }
  }

  lemma QueriedVersion(w: World, owner: string -> string, t: nat)
    requires Inv(w, owner) && t in w.tickets && w.tickets[t].Queried?
    ensures w.tickets[t].version < |w.hist|
  {
  }

  /** Every read that queried, and the next read of all history, shows the part as it was built. */
  ghost predicate Shown(x: Track, p: string)
    requires |x.w.hist| > 0 && p in x.built.parts
  {
    && (forall t :: t in x.w.tickets && x.w.tickets[t].Queried? ==> x.w.tickets[t].version < |x.w.hist| && ReadShows(x, t, p))
    && NextShows(x, p)
  }

  ghost predicate NextShows(x: Track, p: string)
    requires |x.w.hist| > 0 && p in x.built.parts
  {
    var z, u := Track(NextRead(x.w), x.built), x.w.led.issued + 1;
    u in z.w.tickets && z.w.tickets[u].Queried? && z.w.tickets[u].version < |z.w.hist| && ReadShows(z, u, p)
  }

  ghost predicate AllShown(x: Track, owner: string -> string)
    requires |x.w.hist| > 0
  {
    forall p :: Present(x, owner, p) ==> Shown(x, p)
  }

  lemma NextReadBuilt(x: Track, owner: string -> string)
    requires BuiltInv(x, owner)
    ensures |x.w.hist| > 0 && BuiltInv(Track(NextRead(x.w), x.built), owner)
  {
    hide BuiltInv, Do, Legal, WholePage;
    HistoryThere(x, owner);
    NextReadLegal(x.w, owner);
    NextBuilt(x, Begin, owner);
    NextBuilt(Next(x, Begin), Query(x.w.led.issued + 1, WholePage(Latest(x.w)), 0), owner);
  }

  lemma PartShownNow(x: Track, owner: string -> string, p: string)
    requires BuiltInv(x, owner) && Present(x, owner, p)
    ensures |x.w.hist| > 0 && Shown(x, p)
  {
    hide BuiltInv, ReadShows, NextRead, Lost;
    NextReadBuilt(x, owner);
    forall t | t in x.w.tickets && x.w.tickets[t].Queried?
      ensures x.w.tickets[t].version < |x.w.hist| && ReadShows(x, t, p)
    {
      BuiltPartHeld(x, owner, t, p);
    }
    NextReadView(x.w);
    NextReadGone(x.w);
    BuiltPartHeld(Track(NextRead(x.w), x.built), owner, x.w.led.issued + 1, p);
  }

  lemma NextReadGone(w: World)
    requires |w.hist| > 0
    ensures NextRead(w).gone == w.gone
  {
  }

  // ---- the delta that is lost ----

  /** A field neither captured as long as it was built nor stored so is shorter in the read. */
  lemma LongerStored(b: Content, v: LedgerView, d: Rows, h: Rows, limit: nat, owner: string -> string, p: string, f: Field)
    requires UnitsExact(b) && UnitsExact(v.content) && p in b.parts && b.parts[p].part.messageId == owner(p)
    requires PageOf(d, h, limit) && P(p) !in v.removed && M(owner(p)) !in v.removed && Owned(h.parts, owner)
    requires LeftHolds(h, d, owner(p), p, Text, 0) && Length(v.content, p, f) < Length(b, p, f)
    requires p in v.content.parts ==> !v.content.parts[p].final
    requires PartShown(b, v, d, h, limit, p)
    ensures LeftHolds(h, d, owner(p), p, f, Length(b, p, f))
  {
    hide DroppedMsgs, UnitsExact, WithFields, Units, Have, BeforePage, EndingCovered;
    var r, mid := Compose(v, d, limit), owner(p);
    if mid in d.msgs {
      assert mid in WithoutRemoved(v, d).msgs && mid in r.msgs;
      if !CompletedIn(d, mid) {
        assert p in WithoutRemoved(v, d).parts;
        LengthUnits(b, p, f);
        LengthUnits(v.content, p, f);
        if p in v.content.parts {
          LongestField(h.parts[p].data, Values(v.content.parts[p].fields), f);
        }
      }
    }
  }

  lemma LostStream(x: Track, owner: string -> string, ev: Event, now: int)
    requires BuiltInv(x, owner) && Legal(x.w, Stream(ev, now), owner) && ev.PartDelta?
    ensures var y := Next(x, Stream(ev, now));
            && Inv(y.w, owner) && UnitsExact(y.built) && UnitsExact(y.w.led.content) && |y.w.hist| > 0
            && y.w.led.issued == x.w.led.issued && y.w.gone == x.w.gone && Latest(y.w) == Latest(x.w)
            && P(ev.partId) !in y.w.led.confirmed && Owned(Latest(x.w).parts, owner)
            && (forall k :: k in y.w.led.confirmed ==> y.w.led.confirmed[k] <= y.w.led.issued)
  {
    hide MessagesKept, PartsKept, UnitsExact, AfterEvent, Merge, Less, Apply, Secured, ViewsValid;
    HistoryThere(x, owner);
    StreamKeeps(x.w, owner, ev, now);
    StreamFrame(x, ev, now);
    ApplyUnits(x.built, ev);
    ApplyUnits(x.w.led.content, ev);
    EventMarks(x.w.led, ev, now, P(ev.partId));
    forall k
      ensures k in AfterEvent(x.w.led, ev, now).confirmed ==> AfterEvent(x.w.led, ev, now).confirmed[k] <= x.w.led.issued
    {
      EventMarks(x.w.led, ev, now, k);
    }
    assert KeysOf({}, {}) == {};
  }

  lemma CapturedField(l: LedgerState, t: nat, p: string, f: Field)
    ensures var c := Capture(l, t).content;
            && (p in c.parts ==> p in l.content.parts && c.parts[p] == l.content.parts[p] && Length(c, p, f) == Length(l.content, p, f))
            && (p !in c.parts ==> Length(c, p, f) == 0) && (p !in l.content.parts ==> Length(l.content, p, f) == 0)
            && Capture(l, t).removed.Keys == l.removed.Keys
  {
  }

  /** A read that shows the part after a delta the ledger refused finds the field in history. */
  lemma RefusedShown(x: Track, owner: string -> string, ev: Event, now: int, t: nat, d: Rows, h: Rows, limit: nat)
    requires BuiltInv(x, owner) && |x.w.hist| > 0 && Legal(x.w, Stream(ev, now), owner) && !Taken(x, ev)
    requires PageOf(d, h, limit) && Owned(h.parts, owner) && LeftHolds(h, d, owner(ev.partId), ev.partId, Text, 0)
    requires ev.partId in Next(x, Stream(ev, now)).built.parts
    requires PartShown(Next(x, Stream(ev, now)).built, Capture(Next(x, Stream(ev, now)).w.led, t), d, h, limit, ev.partId)
    ensures LeftHolds(h, d, owner(ev.partId), ev.partId, ev.field, Length(Next(x, Stream(ev, now)).built, ev.partId, ev.field))
  {
    hide Inv, MessagesKept, PartsKept, UnitsExact, AfterDelta, Length, Capture, PartShown, LeftHolds, Next, EachHolds, PageOf;
    RefusedNamed(x, ev);
    var y, p := Next(x, Stream(ev, now)), ev.partId;
    StreamFrame(x, ev, now);
    LostStream(x, owner, ev, now);
    DeltaOwner(x.w, owner, ev, now);
    LostLengths(x, owner, ev, ev.field);
    UnitsCaptured(y.w.led, t);
    NotRemoved(y.w, owner, p);
    CapturedField(y.w.led, t, p, ev.field);
    LongerStored(y.built, Capture(y.w.led, t), d, h, limit, owner, p, ev.field);
  }

  /** A read still to compose, and its page of the history it queried. */
  lemma QueriedRead(w: World, owner: string -> string, t: nat)
    requires Inv(w, owner) && t in w.tickets && w.tickets[t].Queried?
    ensures var r := w.tickets[t]; r.version < |w.hist| && PageOf(r.page, w.hist[r.version], r.limit) && Owned(w.hist[r.version].parts, owner)
  {
    hide OwedValid, Secured, ViewsValid, Forward, PageOf;
    assert ReadValid(w.hist, w.tickets[t]);
  }

  lemma NewestStored(h: Rows, mid: string, p: string, f: Field, n: nat)
    requires LeftHolds(h, WholePage(h), mid, p, f, n)
    ensures FieldStored(h, mid, p, f, n)
  {
  }

  lemma StoredNewest(h: Rows, mid: string, p: string, f: Field, n: nat)
    requires FieldStored(h, mid, p, f, n)
    ensures LeftHolds(h, WholePage(h), mid, p, f, n)
  {
  }

  /**
   A delta that lengthens what was built of a part and that the ledger does not take: every
   read shows the part as built if and only if each finds the field so long in history.
   */
  lemma LostDelta(x: Track, owner: string -> string, ev: Event, now: int)
    requires BuiltInv(x, owner) && |x.w.hist| > 0 && Legal(x.w, Stream(ev, now), owner) && !Taken(x, ev)
    ensures var y := Next(x, Stream(ev, now));
            |y.w.hist| > 0 && Present(y, owner, ev.partId) && (Shown(y, ev.partId) <==> Covered(x, owner, ev))
  {
    hide Inv, MessagesKept, PartsKept, UnitsExact, AfterDelta, Length, Next, Taken, Shown, Lost, Present, EachHolds;
    RefusedNamed(x, ev);
    var y, p := Next(x, Stream(ev, now)), ev.partId;
    StreamFrame(x, ev, now);
    DeltaOwner(x.w, owner, ev, now);
    LostLengths(x, owner, ev, ev.field);
    LostPresent(x, owner, ev, now);
    if Covered(x, owner, ev) {
      StreamBuilt(x, owner, ev, now);
      PartShownNow(y, owner, p);
    }
    if Shown(y, p) {
      ShownHolds(x, owner, ev, now);
    }
  }

  lemma LostPresent(x: Track, owner: string -> string, ev: Event, now: int)
    requires BuiltInv(x, owner) && |x.w.hist| > 0 && Legal(x.w, Stream(ev, now), owner) && !Taken(x, ev)
    ensures Present(Next(x, Stream(ev, now)), owner, ev.partId) && |Next(x, Stream(ev, now)).w.hist| > 0
  {
    hide Inv, MessagesKept, PartsKept, UnitsExact, AfterDelta, Length, Next, EachHolds, Lost;
    RefusedNamed(x, ev);
    StreamFrame(x, ev, now);
    DeltaOwner(x.w, owner, ev, now);
    LostLengths(x, owner, ev, ev.field);
    LostStream(x, owner, ev, now);
  }

  lemma ShownHolds(x: Track, owner: string -> string, ev: Event, now: int)
    requires BuiltInv(x, owner) && |x.w.hist| > 0 && Legal(x.w, Stream(ev, now), owner) && !Taken(x, ev)
    requires var y := Next(x, Stream(ev, now)); |y.w.hist| > 0 && ev.partId in y.built.parts && Shown(y, ev.partId)
    ensures Covered(x, owner, ev)
  {
    hide Inv, MessagesKept, PartsKept, UnitsExact, AfterDelta, Length, Next, Taken, PartShown, Capture, FieldStored, LeftHolds, NextRead, WholePage;
    RefusedNamed(x, ev);
    var y, p, f := Next(x, Stream(ev, now)), ev.partId, ev.field;
    StreamFrame(x, ev, now);
    DeltaOwner(x.w, owner, ev, now);
    LostKept(x, owner, ev);
    LostStream(x, owner, ev, now);
    NextReadView(y.w);
    var n, h, u := Length(y.built, p, f), Latest(x.w), x.w.led.issued + 1;
    StoredNewest(h, owner(p), p, Text, 0);
    WholeIsPage(h);
    RefusedShown(x, owner, ev, now, u, WholePage(h), h, 0);
    NewestStored(h, owner(p), p, f, n);
    forall t | t in x.w.tickets && x.w.tickets[t].Queried?
      ensures x.w.tickets[t].version < |x.w.hist| && LeftHolds(x.w.hist[x.w.tickets[t].version], x.w.tickets[t].page, owner(p), p, f, n)
    {
      BuiltUnits(x, owner);
      QueriedRead(x.w, owner, t);
      var r := x.w.tickets[t];
      assert ReadShows(y, t, p);
      RefusedShown(x, owner, ev, now, t, r.page, x.w.hist[r.version], r.limit);
    }
  }

  lemma WholeIsPage(h: Rows)
    ensures PageOf(WholePage(h), h, 0)
  {
  }

  // ---- runs ----

  /** Each delta that lengthens what was built is taken by the ledger, or found in history by every read. */
  ghost predicate CoveredRun(x: Track, steps: seq<Step>, owner: string -> string)
    requires LegalRun(x.w, steps, owner)
    decreases |steps|
  {
    steps == []
    || ((steps[0].Stream? ==> Covered(x, owner, steps[0].ev)) && CoveredRun(Next(x, steps[0]), steps[1..], owner))
  }

  /** At every moment of the run every read shows every part as it was built, unless it is gone. */
  ghost predicate AlwaysShown(x: Track, steps: seq<Step>, owner: string -> string)
    requires LegalRun(x.w, steps, owner)
    decreases |steps|
  {
    AllShown(x, owner) && (steps == [] || AlwaysShown(Next(x, steps[0]), steps[1..], owner))
  }

  ghost function TrackRun(x: Track, steps: seq<Step>, owner: string -> string): Track
    requires LegalRun(x.w, steps, owner)
    decreases |steps|
  {
    if steps == [] then x else TrackRun(Next(x, steps[0]), steps[1..], owner)
  }

  /** The events a run streams. */
  ghost function Streams(steps: seq<Step>): seq<Event> {
    if steps == [] then [] else (if steps[0].Stream? then [steps[0].ev] else []) + Streams(steps[1..])
  }

  /** What was built is the fold of the events, and nothing else. */
  lemma {:induction false} BuiltIsFold(x: Track, steps: seq<Step>, owner: string -> string)
    requires LegalRun(x.w, steps, owner)
    ensures TrackRun(x, steps, owner).built == Folded(x.built, Streams(steps))
    ensures TrackRun(x, steps, owner).w == Run(x.w, steps, owner)
    decreases |steps|
  {
    hide Apply, Do, Legal;
    if steps != [] {
      BuiltIsFold(Next(x, steps[0]), steps[1..], owner);
      if steps[0].Stream? {
        assert Streams(steps) == [steps[0].ev] + Streams(steps[1..]);
        assert Streams(steps)[1..] == Streams(steps[1..]);
      } else {
        assert Streams(steps) == Streams(steps[1..]);
      }
    }
  }

  lemma NextWorld(x: Track, step: Step)
    requires |x.w.hist| > 0
    ensures Next(x, step).w == Do(x.w, step)
  {
  }

  lemma NewTrackValid(rows: Rows, owner: string -> string)
    requires Owned(rows.parts, owner)
    ensures BuiltInv(NewTrack(rows), owner)
  {
    NewWorldValid(rows, owner);
    hide Inv;
  }

  lemma {:induction false} ShownIffCovered(x: Track, steps: seq<Step>, owner: string -> string)
    requires BuiltInv(x, owner) && LegalRun(x.w, steps, owner)
    ensures AlwaysShown(x, steps, owner) <==> CoveredRun(x, steps, owner)
    decreases |steps|
  {
    hide BuiltInv, Legal, Covered, Next, Shown, Do, Lost;
    assert AllShown(x, owner) by {
      forall p | Present(x, owner, p)
        ensures Shown(x, p)
      {
        PartShownNow(x, owner, p);
      }
    }
    if steps != [] {
      var y := Next(x, steps[0]);
      NextWorld(x, steps[0]);
      if steps[0].Stream? && !Covered(x, owner, steps[0].ev) {
        CoveredTaken(x, owner, steps[0].ev);
        LostDelta(x, owner, steps[0].ev, steps[0].now);
        assert !AllShown(y, owner);
      } else {
        NextBuilt(x, steps[0], owner);
        ShownIffCovered(y, steps[1..], owner);
      }
    }
  }

  lemma CoveredTaken(x: Track, owner: string -> string, ev: Event)
    requires |x.w.hist| > 0 && !Covered(x, owner, ev)
    ensures !Taken(x, ev)
  {
  }

  /**
   In every interleaving of the stream, reads and ingestion: at every moment each newest-page
   read still to compose, and the next read of all history, shows every part at least as long
   as the stream's events built it, unless it is gone, its message lies outside the page or is
   completed in it, if and only if each delta that lengthens what was built is taken by the
   ledger or found in history by each of those reads.
   */
  lemma NothingLost(rows: Rows, steps: seq<Step>, owner: string -> string)
    requires Owned(rows.parts, owner) && LegalRun(NewWorld(rows), steps, owner)
    ensures AlwaysShown(NewTrack(rows), steps, owner) <==> CoveredRun(NewTrack(rows), steps, owner)
  {
    hide BuiltInv;
    NewTrackValid(rows, owner);
    ShownIffCovered(NewTrack(rows), steps, owner);
  }

  // ---- messages ----

  ghost predicate MessagesInv(x: Track, owner: string -> string) {
    Inv(x.w, owner) && MessagesKept(x.built, x.w.owed, x.w.gone)
  }

  /** Whatever becomes of deltas, the messages the stream built are owed until they are gone. */
  lemma MessagesStep(x: Track, step: Step, owner: string -> string)
    requires MessagesInv(x, owner) && |x.w.hist| > 0 && Legal(x.w, step, owner)
    ensures MessagesInv(Next(x, step), owner)
  {
    DoKeeps(x.w, step, owner);
    InvOwed(x.w, owner);
    hide Inv, Less, Capture, AfterEvent, AfterCommit, AfterPurge, DropNow, OrphanNow, Legal, MessagesKept;
    match step
    case Stream(ev, now) => StreamMessages(x, owner, ev, now);
    case Commit(t) =>
      CommitForgets(x.w, owner, t);
      MessagesLess(x, owner, DropNow(x.w.led, x.w.tickets[t].view, x.w.tickets[t].page),
                   OrphanNow(x.w.led, x.w.tickets[t].view, x.w.tickets[t].page), Next(x, step));
    case Evict(ms, ps) => MessagesLess(x, owner, ms, ps, Next(x, step));
    case _ =>
  }

  lemma InvOwed(w: World, owner: string -> string)
    requires Inv(w, owner)
    ensures OwedValid(w, owner)
  {
  }

  lemma CommitForgets(w: World, owner: string -> string, t: nat)
    requires |w.hist| > 0 && Legal(w, Commit(t), owner)
    ensures t in w.tickets && w.tickets[t].Captured?
    ensures var r := w.tickets[t]; Forgets(w, Do(w, Commit(t)), DropNow(w.led, r.view, r.page), OrphanNow(w.led, r.view, r.page))
  {
    hide Less, DropNow, OrphanNow, ConfirmNow, ClearsNow, KeysOf;
  }

  lemma {:induction false} MessagesRun(x: Track, steps: seq<Step>, owner: string -> string)
    requires MessagesInv(x, owner) && LegalRun(x.w, steps, owner)
    ensures MessagesInv(TrackRun(x, steps, owner), owner)
    decreases |steps|
  {
    hide MessagesInv, Legal, Next, Do;
    if steps != [] {
      NextWorld(x, steps[0]);
      MessagesStep(x, steps[0], owner);
      MessagesRun(Next(x, steps[0]), steps[1..], owner);
    }
  }

  /**
   In every run a newest-page read still to compose holds every message the stream built and not
   gone, with its endings, unless it lies outside the page or history moved past its ended turn.
   */
  lemma MessagesShown(rows: Rows, steps: seq<Step>, owner: string -> string, t: nat, id: string)
    requires Owned(rows.parts, owner) && LegalRun(NewWorld(rows), steps, owner)
    requires var w := Run(NewWorld(rows), steps, owner); t in w.tickets && w.tickets[t].Queried?
    requires id in Folded(EMPTY, Streams(steps)).msgs && M(id) !in Run(NewWorld(rows), steps, owner).gone
    ensures var w, r := Run(NewWorld(rows), steps, owner), Run(NewWorld(rows), steps, owner).tickets[t];
            && r.version < |w.hist|
            && MessageShown(Folded(EMPTY, Streams(steps)), Capture(w.led, t), r.page, w.hist[r.version], r.limit, id)
  {
    hide MessageShown, Capture, Inv;
    var x := TrackRun(NewTrack(rows), steps, owner);
    NewWorldValid(rows, owner);
    MessagesRun(NewTrack(rows), steps, owner);
    BuiltIsFold(NewTrack(rows), steps, owner);
    QueriedVersion(x.w, owner, t);
    BuiltMessageHeld(x, owner, t, id);
  }

  lemma BuiltMessageHeld(x: Track, owner: string -> string, t: nat, id: string)
    requires MessagesInv(x, owner) && t in x.w.tickets && x.w.tickets[t].Queried? && id in x.built.msgs && M(id) !in x.w.gone
    ensures var r := x.w.tickets[t];
            r.version < |x.w.hist| && MessageShown(x.built, Capture(x.w.led, t), r.page, x.w.hist[r.version], r.limit, id)
  {
    hide Inv, Compose, Capture, WithoutRemoved, BeforePage, DroppedMsgs;
    QueriedVersion(x.w, owner, t);
    MessageHeld(x.w, owner, t, id);
  }
}

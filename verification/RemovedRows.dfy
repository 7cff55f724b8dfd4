/**
 Removed rows: which reads a tombstone keeps them from, and exactly when a removed row
 can come back.
 */
module RemovedRows {
  import opened Events
  import opened StreamContent
  import opened LedgerModel
  import opened LedgerRuns

  // ---- what shows a removed row ----

  /** Stored rows a page can hold: a part only with its message. */
  predicate Readable(d: Rows, k: RowKey) {
    if k.M? then k.id in d.msgs else k.id in d.parts && d.parts[k.id].messageId in d.msgs
  }

  /** Only the row's own tombstone keeps it out of a read of these rows. */
  predicate Exposed(dead: set<RowKey>, owner: string -> string, d: Rows, k: RowKey) {
    Readable(d, k) && (k.P? ==> M(owner(k.id)) !in dead)
  }

  /** The composed read shows the row, or a part of it. */
  predicate Shows(r: Rows, k: RowKey) {
    RowIn(r, k) || (k.M? && exists p :: p in r.parts && r.parts[p].messageId == k.id)
  }

  /** A read that queried shows the row when it is captured. */
  predicate ReadShows(w: World, t: nat, k: RowKey)
    requires t in w.tickets && w.tickets[t].Queried?
  {
    Shows(Compose(Capture(w.led, t), w.tickets[t].page, w.tickets[t].limit), k)
  }

  /** The row comes back: a read that queried shows it, or the next read of all history does. */
  ghost predicate Resurrected(w: World, k: RowKey)
    requires |w.hist| > 0
  {
    || (exists t :: t in w.tickets && w.tickets[t].Queried? && ReadShows(w, t, k))
    || (var z, u := NextRead(w), w.led.issued + 1; u in z.tickets && z.tickets[u].Queried? && ReadShows(z, u, k))
  }

  // ---- the steps that take a tombstone away ----

  predicate Active(w: World, k: RowKey) { k in w.led.removed && w.led.removed[k].cleared == 0 }

  predicate Expires(w: World, k: RowKey, now: int) {
    k in w.led.removed && w.led.removed[k].cleared == 0 && now - w.led.removed[k].at > LEDGER_TTL
  }

  /**
   A commit clears the tombstones of rows its page did not reach, and the end of a read drops
   old ones; a timely one does so once the newest history, and each page an open read still
   has to compose, no longer shows the row. History takes a removed row in late, timely while
   its tombstone is active.
   */
  ghost predicate Timely(w: World, step: Step, owner: string -> string)
    requires |w.hist| > 0
  {
    match step
    case Commit(t) =>
      t in w.tickets && w.tickets[t].Captured? ==>
        var r := w.tickets[t];
        forall k :: k in w.dead && ClearsNow(w.led, r.view, r.page, k) ==> !Exposed(w.dead, owner, Latest(w), k)
    case End(t, now) => forall k :: k in w.dead && Expires(w, k, now) ==> Unread(w, owner, k, t)
    case Ingest(rows) => forall k :: k in w.dead && Exposed(w.dead, owner, rows, k) ==> Active(w, k)
    case _ => true
  }

  ghost predicate Unread(w: World, owner: string -> string, k: RowKey, t: nat)
    requires |w.hist| > 0
  {
    && !Exposed(w.dead, owner, Latest(w), k)
    && forall u :: u in w.tickets && w.tickets[u].Queried? && u != t ==> !Exposed(w.dead, owner, w.tickets[u].page, k)
  }

  // ---- what timely steps keep ----

  /** The newest history hides the row, and so does each page queried, unless its read still filters it. */
  ghost predicate Hidden(w: World, owner: string -> string, k: RowKey)
    requires |w.hist| > 0
  {
    && !Exposed(w.dead, owner, Latest(w), k)
    && forall t :: t in w.tickets && w.tickets[t].Queried? && (k in w.led.removed ==> w.led.removed[k].cleared < t) ==>
         !Exposed(w.dead, owner, w.tickets[t].page, k)
  }

  ghost predicate Buried(w: World, owner: string -> string, k: RowKey)
    requires |w.hist| > 0
  {
    Active(w, k) || Hidden(w, owner, k)
  }

  ghost predicate TombsValid(w: World) {
    && w.led.removed.Keys <= w.dead <= w.gone
    && (forall k :: k in w.led.removed ==> w.led.removed[k].cleared <= w.led.issued)
    && (forall t :: t in w.tickets ==> 0 < t)
  }

  ghost predicate DeadValid(w: World, owner: string -> string) {
    |w.hist| > 0 && TombsValid(w) && forall k :: k in w.dead ==> Buried(w, owner, k)
  }

  /** One step's effect on a removed row's tombstone. */
  lemma TombStep(w: World, step: Step, owner: string -> string, k: RowKey)
    requires Inv(w, owner) && w.dead <= w.gone && k in w.dead && Legal(w, step, owner)
    ensures var x := Do(w, step);
            if k in x.led.removed
            then
              || x.led.removed[k].cleared == 0
              || (k in w.led.removed && w.led.removed[k].cleared == x.led.removed[k].cleared)
              || (step.Commit? && ClearsNow(w.led, w.tickets[step.ticket].view, w.tickets[step.ticket].page, k)
                  && x.led.removed[k].cleared == w.led.issued)
            else
              || k !in w.led.removed
              || (step.End? && w.led.removed[k].cleared == 0 && Expires(w, k, step.now))
              || (step.End? && w.led.removed[k].cleared != 0
                  && BeforeOpen(w.led.(open := w.led.open - {step.ticket}), w.led.removed[k].cleared))
  {
    hide Forward, PageOf, Stored, Secured, ViewsValid, HistoryValid, RowsValid, ClearedKeys, ConfirmNow, Less, Ticketed, DropNow, OrphanNow, Forgettable, Purged, Bumped;
    match step
    case Stream(ev, now) =>
      assert k !in Named(ev);
    case _ =>
  }

  /** Reads keep what they queried, and query only the newest history. */
  lemma ReadStep(w: World, step: Step, owner: string -> string)
    requires Inv(w, owner) && Legal(w, step, owner)
    ensures var x := Do(w, step);
            && |x.hist| > 0 && w.dead <= x.dead
            && (step.Ingest? || Latest(x) == Latest(w)) && (step.Ingest? ==> Latest(x) == step.rows)
            && (forall t :: t in x.tickets && x.tickets[t].Queried? ==>
                  || (t in w.tickets && w.tickets[t] == x.tickets[t])
                  || (step.Query? && step.ticket == t && x.tickets[t].page == step.page && PageOf(step.page, Latest(w), step.limit)))
            && (step.End? ==> x.tickets.Keys == w.tickets.Keys - {step.ticket})
            && w.led.open == w.tickets.Keys && (forall t :: t in w.tickets ==> t <= w.led.issued)
  {
    hide Forward, PageOf, Stored, Secured, ViewsValid, HistoryValid, RowsValid, AfterEvent, AfterCommit, AfterPurge, Capture, Less, Merge;
  }

  lemma PageExposes(dead: set<RowKey>, owner: string -> string, d: Rows, h: Rows, limit: nat, k: RowKey)
    requires PageOf(d, h, limit) && Exposed(dead, owner, d, k)
    ensures Exposed(dead, owner, h, k)
  {
  }

  lemma ExposedLess(dead: set<RowKey>, more: set<RowKey>, owner: string -> string, d: Rows, k: RowKey)
    requires dead <= more && Exposed(more, owner, d, k)
    ensures Exposed(dead, owner, d, k)
  {
  }

  lemma BuriedKeeps(w: World, step: Step, owner: string -> string, k: RowKey)
    requires Inv(w, owner) && DeadValid(w, owner) && k in w.dead
    requires Legal(w, step, owner) && Timely(w, step, owner)
    ensures |Do(w, step).hist| > 0 && Buried(Do(w, step), owner, k)
  {
    TombStep(w, step, owner, k);
    ReadStep(w, step, owner);
    var x := Do(w, step);
    assert Buried(w, owner, k);
    assert step.Ingest? ==> x.dead == w.dead;
    hide Inv, Do, Legal, Exposed, PageOf, Readable, RowIn, ClearedKeys, RevOf;
    if !Active(x, k) {
      assert !Exposed(w.dead, owner, Latest(w), k);
      LatestHidden(w, step, owner, k, x);
      forall t | t in x.tickets && x.tickets[t].Queried? && (k in x.led.removed ==> x.led.removed[k].cleared < t)
        ensures !Exposed(x.dead, owner, x.tickets[t].page, k)
      {
        if Exposed(x.dead, owner, x.tickets[t].page, k) {
          ExposedLess(w.dead, x.dead, owner, x.tickets[t].page, k);
          if step.Query? && step.ticket == t {
            PageExposes(w.dead, owner, step.page, Latest(w), step.limit, k);
          }
        }
      }
    }
  }

  lemma LatestHidden(w: World, step: Step, owner: string -> string, k: RowKey, x: World)
    requires |w.hist| > 0 && |x.hist| > 0 && k in w.dead && w.dead <= x.dead
    requires step.Ingest? ==> !Exposed(w.dead, owner, step.rows, k)
    requires step.Ingest? || Latest(x) == Latest(w)
    requires step.Ingest? ==> Latest(x) == step.rows
    requires !Exposed(w.dead, owner, Latest(w), k)
    ensures !Exposed(x.dead, owner, Latest(x), k)
  {
    if Exposed(x.dead, owner, Latest(x), k) {
      ExposedLess(w.dead, x.dead, owner, Latest(x), k);
    }
  }

  lemma TombsStep(w: World, step: Step, owner: string -> string)
    requires Inv(w, owner) && TombsValid(w) && Legal(w, step, owner)
    ensures TombsValid(Do(w, step))
    ensures var x := Do(w, step);
            forall k :: k in x.dead && k !in w.dead ==> step.Stream? && k in KeysOf(Removals(step.ev).0, Removals(step.ev).1)
  {
    hide Less, KeysOf, DropNow, OrphanNow, ConfirmNow, ClearsNow, Forward, PageOf, Secured, ViewsValid, HistoryValid, RowsValid, Bumped, Purged;
    match step
    case Stream(ev, now) => StreamTombs(w.led, ev, now);
    case _ =>
  }

  /** Only a removal adds a tombstone. */
  lemma StreamTombs(l: LedgerState, ev: Event, now: int)
    ensures var x := AfterEvent(l, ev, now);
            && x.removed.Keys <= l.removed.Keys + KeysOf(Removals(ev).0, Removals(ev).1) && x.issued == l.issued
            && forall k :: k in x.removed ==> x.removed[k].cleared == 0 || (k in l.removed && x.removed[k] == l.removed[k])
  {
    hide Less, Apply, Bumped;
  }

  lemma NewlyBuried(w: World, step: Step, owner: string -> string, k: RowKey)
    requires |w.hist| > 0 && step.Stream? && k in KeysOf(Removals(step.ev).0, Removals(step.ev).1)
    ensures Active(Do(w, step), k)
  {
  }

  /** Timely steps keep removed rows out of every read. */
  lemma DeadKeeps(w: World, step: Step, owner: string -> string)
    requires Inv(w, owner) && DeadValid(w, owner)
    requires Legal(w, step, owner) && Timely(w, step, owner)
    ensures DeadValid(Do(w, step), owner)
  {
    var x := Do(w, step);
    TombsStep(w, step, owner);
    ReadStep(w, step, owner);
    hide Hidden, Active, TombsValid, Do, Inv, Legal;
    forall k | k in x.dead
      ensures Buried(x, owner, k)
    {
      if k in w.dead {
        BuriedKeeps(w, step, owner, k);
      } else {
        NewlyBuried(w, step, owner, k);
      }
    }
  }

  // ---- what a read shows ----

  /** Rows the read filters or its page hides, and the ledger does not hold, are not composed. */
  lemma HiddenIn(v: LedgerView, d: Rows, limit: nat, k: RowKey)
    requires Filtered(v, k) || !Readable(d, k) || (k.P? && Filtered(v, M(d.parts[k.id].messageId)))
    requires !Holds(v.content, k) && forall p :: p in d.parts ==> d.parts[p].messageId in d.msgs
    requires k.M? ==> forall p :: p in v.content.parts ==> v.content.parts[p].part.messageId != k.id
    ensures !Shows(Compose(v, d, limit), k)
  {
    hide DroppedMsgs, WithFields, Covers, BeforePage, EndingCovered;
  }

  /** A lost row is not in the ledger's content, nor are its parts. */
  lemma NotHeld(w: World, owner: string -> string, k: RowKey)
    requires OwedValid(w, owner) && k in w.gone
    ensures !Holds(w.led.content, k)
    ensures k.M? ==> forall p :: p in w.led.content.parts ==> w.led.content.parts[p].part.messageId != k.id
  {
    if k.M? {
      forall p | p in w.led.content.parts
        ensures w.led.content.parts[p].part.messageId != k.id
      {
        assert Holds(w.led.content, P(p)) && Holds(w.owed, P(p));
      }
    }
    assert !Holds(w.owed, k);
  }

  /** A read of a removed row's page filters the row or its message. */
  lemma BuriedFiltered(w: World, owner: string -> string, t: nat, k: RowKey)
    requires DeadValid(w, owner) && k in w.dead && t in w.tickets && w.tickets[t].Queried?
    requires Owned(w.tickets[t].page.parts, owner)
    ensures var v, d := Capture(w.led, t), w.tickets[t].page;
            Filtered(v, k) || !Readable(d, k) || (k.P? && Filtered(v, M(d.parts[k.id].messageId)))
  {
    var v, d := Capture(w.led, t), w.tickets[t].page;
    assert Buried(w, owner, k);
    if k.P? && !Filtered(v, k) && Readable(d, k) {
      var m := M(owner(k.id));
      assert m in w.dead;
      assert Buried(w, owner, m);
    }
  }

  lemma BuriedHidden(w: World, owner: string -> string, t: nat, k: RowKey)
    requires Inv(w, owner) && DeadValid(w, owner) && k in w.dead && t in w.tickets && w.tickets[t].Queried?
    ensures !ReadShows(w, t, k)
  {
    var r := w.tickets[t];
    QueriedPage(w, owner, t);
    BuriedFiltered(w, owner, t, k);
    NotHeld(w, owner, k);
    hide Inv, DeadValid, Shows, Compose, Filtered, Readable;
    HiddenIn(Capture(w.led, t), r.page, r.limit, k);
  }

  lemma QueriedPage(w: World, owner: string -> string, t: nat)
    requires Inv(w, owner) && t in w.tickets && w.tickets[t].Queried?
    ensures var d := w.tickets[t].page; Owned(d.parts, owner) && forall p :: p in d.parts ==> d.parts[p].messageId in d.msgs
  {
    hide Secured, ViewsValid, OwedValid, Forward;
    var r := w.tickets[t];
    assert ReadValid(w.hist, r) && PageOf(r.page, w.hist[r.version], r.limit);
  }

  lemma NotResurrected(w: World, owner: string -> string, k: RowKey)
    requires Inv(w, owner) && DeadValid(w, owner) && k in w.dead
    ensures !Resurrected(w, k)
  {
    hide Inv, DeadValid, ReadShows;
    assert |w.hist| > 0 by { assert DeadValid(w, owner); DeadHistory(w, owner); }
    forall t | t in w.tickets && w.tickets[t].Queried?
      ensures !ReadShows(w, t, k)
    {
      BuriedHidden(w, owner, t, k);
    }
    NextReadKeeps(w, owner);
    NextReadView(w);
    hide NextRead;
    BuriedHidden(NextRead(w), owner, w.led.issued + 1, k);
  }

  lemma NextReadKeeps(w: World, owner: string -> string)
    requires Inv(w, owner) && DeadValid(w, owner)
    ensures |w.hist| > 0 && Inv(NextRead(w), owner) && DeadValid(NextRead(w), owner)
  {
    hide Inv, DeadValid, Do, Legal;
    DeadHistory(w, owner);
    NextReadLegal(w, owner);
    var y, u := Do(w, Begin), w.led.issued + 1;
    DoKeeps(w, Begin, owner);
    DeadKeeps(w, Begin, owner);
    DoKeeps(y, Query(u, WholePage(Latest(w)), 0), owner);
    DeadKeeps(y, Query(u, WholePage(Latest(w)), 0), owner);
  }

  lemma DeadHistory(w: World, owner: string -> string)
    requires DeadValid(w, owner)
    ensures |w.hist| > 0
  {
  }

  // ---- the other way round ----

  /** A read that does not filter the row shows it wherever its page exposes it. */
  lemma ExposedShown(v: LedgerView, d: Rows, limit: nat, dead: set<RowKey>, owner: string -> string, k: RowKey)
    requires Exposed(dead, owner, d, k) && Owned(d.parts, owner)
    requires !Filtered(v, k) && v.removed.Keys <= dead
    ensures Shows(Compose(v, d, limit), k)
  {
    hide DroppedMsgs, WithFields, Covers, BeforePage, EndingCovered;
    if k.M? {
      assert k.id in WithoutRemoved(v, d).msgs;
    } else {
      assert !Filtered(v, M(d.parts[k.id].messageId));
      assert k.id in WithoutRemoved(v, d).parts;
    }
  }

  /** Once its tombstone no longer filters new reads, a row the newest history exposes comes back. */
  lemma LatestShows(w: World, owner: string -> string, k: RowKey)
    requires |w.hist| > 0 && Owned(Latest(w).parts, owner) && w.led.removed.Keys <= w.dead
    requires k in w.led.removed ==> 0 < w.led.removed[k].cleared <= w.led.issued
    requires Exposed(w.dead, owner, Latest(w), k)
    ensures Resurrected(w, k)
  {
    hide Shows, Compose;
    NextReadView(w);
    var v, page := Capture(w.led, w.led.issued + 1), WholePage(Latest(w));
    assert Exposed(w.dead, owner, page, k) && Owned(page.parts, owner);
    assert v.removed.Keys == w.led.removed.Keys && !Filtered(v, k);
    ExposedShown(v, page, 0, w.dead, owner, k);
  }

  lemma HistoryOwned(w: World, owner: string -> string)
    requires Inv(w, owner)
    ensures Owned(Latest(w).parts, owner) && (forall t :: t in w.tickets ==> t <= w.led.issued) && w.led.open == w.tickets.Keys
  {
  }

  /** A row a commit clears although the newest history exposes it comes back. */
  lemma EarlyClear(w: World, owner: string -> string, t: nat, k: RowKey)
    requires Inv(w, owner) && TombsValid(w) && t in w.tickets && w.tickets[t].Captured? && k in w.dead
    requires ClearsNow(w.led, w.tickets[t].view, w.tickets[t].page, k) && Exposed(w.dead, owner, Latest(w), k)
    ensures Resurrected(Do(w, Commit(t)), k)
  {
    HistoryOwned(w, owner);
    CommitClears(w, t, k);
    hide Inv, Resurrected, Do, Exposed, ClearsNow;
    LatestShows(Do(w, Commit(t)), owner, k);
  }

  /** Committing a read keeps history, and clears what it clears up to the newest ticket. */
  lemma CommitClears(w: World, t: nat, k: RowKey)
    requires |w.hist| > 0 && t in w.tickets && w.tickets[t].Captured?
    requires ClearsNow(w.led, w.tickets[t].view, w.tickets[t].page, k)
    ensures var x := Do(w, Commit(t));
            && x.hist == w.hist && x.led.issued == w.led.issued && x.dead == w.dead && x.led.removed.Keys == w.led.removed.Keys
            && k in x.led.removed && x.led.removed[k].cleared == w.led.issued
  {
    hide Less, DropNow, OrphanNow, ConfirmNow;
  }

  /** A row whose tombstone expires although a read still exposes it comes back. */
  lemma EarlyExpiry(w: World, owner: string -> string, t: nat, now: int, k: RowKey)
    requires Inv(w, owner) && TombsValid(w) && t in w.tickets && k in w.dead
    requires Expires(w, k, now) && !Unread(w, owner, k, t)
    ensures |Do(w, End(t, now)).hist| > 0 && Resurrected(Do(w, End(t, now)), k)
  {
    HistoryOwned(w, owner);
    EndDrops(w, t, now, k);
    var x := Do(w, End(t, now));
    if Exposed(w.dead, owner, Latest(w), k) {
      hide Inv, Resurrected, Do, Exposed;
      LatestShows(x, owner, k);
    } else {
      var u :| u in w.tickets && w.tickets[u].Queried? && u != t && Exposed(w.dead, owner, w.tickets[u].page, k);
      QueriedPage(w, owner, u);
      hide Inv, Do, Exposed, Shows, Compose;
      ExposedShown(Capture(x.led, u), x.tickets[u].page, x.tickets[u].limit, w.dead, owner, k);
      assert ReadShows(x, u, k);
    }
  }

  lemma EndDrops(w: World, t: nat, now: int, k: RowKey)
    requires |w.hist| > 0 && Expires(w, k, now)
    ensures var x := Do(w, End(t, now));
            && x.hist == w.hist && x.dead == w.dead && x.led.removed.Keys <= w.led.removed.Keys && k !in x.led.removed
            && forall u :: u in w.tickets && u != t ==> u in x.tickets && x.tickets[u] == w.tickets[u]
  {
    hide Purged, Forgettable;
  }

  /** A removed row history takes in once no tombstone filters it comes back. */
  lemma LateIngest(w: World, owner: string -> string, rows: Rows, k: RowKey)
    requires Inv(w, owner) && TombsValid(w) && k in w.dead && Owned(rows.parts, owner)
    requires Exposed(w.dead, owner, rows, k) && !Active(w, k)
    ensures |Do(w, Ingest(rows)).hist| > 0 && Resurrected(Do(w, Ingest(rows)), k)
  {
    var x := Do(w, Ingest(rows));
    assert Latest(x) == rows && x.led == w.led && x.dead == w.dead;
    hide Inv, Resurrected, Do, Exposed;
    LatestShows(x, owner, k);
  }

  /** An untimely step brings a removed row back at once. */
  lemma UntimelyShows(w: World, step: Step, owner: string -> string)
    requires Inv(w, owner) && DeadValid(w, owner) && Legal(w, step, owner) && !Timely(w, step, owner)
    ensures |Do(w, step).hist| > 0 && exists k :: k in Do(w, step).dead && Resurrected(Do(w, step), k)
  {
    ReadStep(w, step, owner);
    hide Inv, Resurrected, Do, Exposed, ClearsNow, Expires, Unread, Buried;
    if step.Commit? {
      var r := w.tickets[step.ticket];
      var k :| k in w.dead && ClearsNow(w.led, r.view, r.page, k) && Exposed(w.dead, owner, Latest(w), k);
      EarlyClear(w, owner, step.ticket, k);
    } else if step.Ingest? {
      var k :| k in w.dead && Exposed(w.dead, owner, step.rows, k) && !Active(w, k);
      LateIngest(w, owner, step.rows, k);
    } else {
      var k :| k in w.dead && Expires(w, k, step.now) && !Unread(w, owner, k, step.ticket);
      EarlyExpiry(w, owner, step.ticket, step.now, k);
    }
  }

  // ---- runs ----

  ghost predicate TimelyRun(w: World, steps: seq<Step>, owner: string -> string)
    requires LegalRun(w, steps, owner)
    decreases |steps|
  {
    steps == [] || (Timely(w, steps[0], owner) && TimelyRun(Do(w, steps[0]), steps[1..], owner))
  }

  /** At no moment of the run does a removed row come back. */
  ghost predicate StaysRemoved(w: World, steps: seq<Step>, owner: string -> string)
    requires LegalRun(w, steps, owner)
    decreases |steps|
  {
    && (forall k :: k in w.dead ==> !Resurrected(w, k))
    && (steps == [] || StaysRemoved(Do(w, steps[0]), steps[1..], owner))
  }

  lemma {:induction false} StaysIffTimely(w: World, steps: seq<Step>, owner: string -> string)
    requires Inv(w, owner) && DeadValid(w, owner) && LegalRun(w, steps, owner)
    ensures StaysRemoved(w, steps, owner) <==> TimelyRun(w, steps, owner)
    decreases |steps|
  {
    hide Inv, DeadValid, Resurrected, Timely, Do, Legal;
    forall k | k in w.dead
      ensures !Resurrected(w, k)
    {
      NotResurrected(w, owner, k);
    }
    if steps != [] {
      var x := Do(w, steps[0]);
      if Timely(w, steps[0], owner) {
        DoKeeps(w, steps[0], owner);
        DeadKeeps(w, steps[0], owner);
        StaysIffTimely(x, steps[1..], owner);
      } else {
        UntimelyShows(w, steps[0], owner);
        var k :| k in x.dead && Resurrected(x, k);
        assert !StaysRemoved(x, steps[1..], owner);
      }
    }
  }

  lemma NewWorldDead(rows: Rows, owner: string -> string)
    ensures DeadValid(NewWorld(rows), owner)
  {
  }

  /**
   In every run no read shows a removed row at any moment if and only if each tombstone is
   cleared or dropped only once the newest history, and for a dropped one the pages of the reads
   still open, hide its row, and history takes a removed row in only under an active tombstone.
   */
  lemma NothingResurrected(rows: Rows, steps: seq<Step>, owner: string -> string)
    requires Owned(rows.parts, owner) && LegalRun(NewWorld(rows), steps, owner)
    ensures StaysRemoved(NewWorld(rows), steps, owner) <==> TimelyRun(NewWorld(rows), steps, owner)
  {
    hide Inv, DeadValid;
    NewWorldValid(rows, owner);
    NewWorldDead(rows, owner);
    StaysIffTimely(NewWorld(rows), steps, owner);
  }

  /** A read that does not filter the part itself shows it exactly where its page exposes it. */
  lemma PartShows(v: LedgerView, d: Rows, limit: nat, dead: set<RowKey>, owner: string -> string, p: string)
    requires Owned(d.parts, owner) && (forall q :: q in d.parts ==> d.parts[q].messageId in d.msgs)
    requires v.removed.Keys <= dead && P(p) !in v.removed && p !in v.content.parts
    requires M(owner(p)) in dead ==> Filtered(v, M(owner(p))) || owner(p) !in d.msgs
    ensures Shows(Compose(v, d, limit), P(p)) <==> Exposed(dead, owner, d, P(p))
  {
    hide Compose, Shows;
    if Exposed(dead, owner, d, P(p)) {
      ExposedShown(v, d, limit, dead, owner, P(p));
    } else {
      HiddenIn(v, d, limit, P(p));
    }
  }

  /** A refused delta changes nothing but the part's own tombstone, confirmation and revision. */
  lemma RefusedDelta(w: World, p: string, f: Field, offset: int, text: string, now: int)
    requires |w.hist| > 0 && p !in w.led.content.parts
    ensures var x := Do(w, Stream(PartDelta(p, f, offset, text), now));
            && x.led.content == w.led.content && x.led.removed == w.led.removed - {P(p)} && x.led.issued == w.led.issued
            && x.hist == w.hist && x.tickets == w.tickets
  {
    hide Merge, Less, KeysOf;
  }

  lemma UnburiedRead(w: World, x: World, owner: string -> string, t: nat, p: string)
    requires Inv(w, owner) && DeadValid(w, owner) && P(p) in w.dead && t in w.tickets && w.tickets[t].Queried?
    requires p !in w.led.content.parts && x.led.content == w.led.content && x.led.removed == w.led.removed - {P(p)}
    requires x.tickets == w.tickets
    ensures ReadShows(x, t, P(p)) <==> Exposed(w.dead, owner, w.tickets[t].page, P(p))
  {
    hide Inv, DeadValid, Shows, Compose, Capture, Filtered;
    QueriedPage(w, owner, t);
    if M(owner(p)) in w.dead {
      BuriedFiltered(w, owner, t, M(owner(p)));
    }
    DeadTombs(w, owner);
    UnburiedView(w.led, x.led, t, p, M(owner(p)));
    var v, r := Capture(x.led, t), w.tickets[t];
    PartShows(v, r.page, r.limit, w.dead, owner, p);
  }

  lemma DeadTombs(w: World, owner: string -> string)
    requires DeadValid(w, owner)
    ensures w.led.removed.Keys <= w.dead
  {
  }

  lemma UnburiedView(l: LedgerState, m: LedgerState, t: nat, p: string, k: RowKey)
    requires k.M? && p !in l.content.parts && m.content == l.content && m.removed == l.removed - {P(p)}
    ensures var v := Capture(m, t);
            && (Filtered(v, k) <==> Filtered(Capture(l, t), k))
            && v.removed.Keys <= l.removed.Keys && P(p) !in v.removed && p !in v.content.parts
  {
  }

  lemma WholeExposes(dead: set<RowKey>, owner: string -> string, h: Rows, k: RowKey)
    ensures Exposed(dead, owner, WholePage(h), k) <==> Exposed(dead, owner, h, k)
  {
  }

  /**
   A delta naming a removed part adds nothing, yet takes its tombstone away: the part comes
   back exactly where the newest history, or a page already queried, exposes it.
   */
  lemma RefusedDeltaUnburies(w: World, owner: string -> string, p: string, f: Field, offset: int, text: string, now: int)
    requires Inv(w, owner) && DeadValid(w, owner) && P(p) in w.dead
    ensures var x := Do(w, Stream(PartDelta(p, f, offset, text), now));
            && |x.hist| > 0 && x.led.content == w.led.content && P(p) !in x.led.removed
            && (Resurrected(x, P(p)) <==>
                  || Exposed(w.dead, owner, Latest(w), P(p))
                  || exists t :: t in w.tickets && w.tickets[t].Queried? && Exposed(w.dead, owner, w.tickets[t].page, P(p)))
  {
    hide Inv, DeadValid, ReadShows, Do, Exposed, NextRead, WholePage;
    DeadHistory(w, owner);
    DeadNotHeld(w, owner, p);
    RefusedDelta(w, p, f, offset, text, now);
    NextReadView(w);
    var x := Do(w, Stream(PartDelta(p, f, offset, text), now));
    forall t | t in w.tickets && w.tickets[t].Queried?
      ensures ReadShows(x, t, P(p)) <==> Exposed(w.dead, owner, w.tickets[t].page, P(p))
    {
      UnburiedRead(w, x, owner, t, p);
    }
    UnburiedNext(w, x, owner, p);
  }

  lemma DeadNotHeld(w: World, owner: string -> string, p: string)
    requires Inv(w, owner) && DeadValid(w, owner) && P(p) in w.dead
    ensures p !in w.led.content.parts
  {
    NotHeld(w, owner, P(p));
  }

  /** The next read after the refused delta. */
  lemma UnburiedNext(w: World, x: World, owner: string -> string, p: string)
    requires Inv(w, owner) && DeadValid(w, owner) && P(p) in w.dead && |w.hist| > 0
    requires p !in w.led.content.parts && x.led.content == w.led.content && x.led.removed == w.led.removed - {P(p)}
    requires x.hist == w.hist && x.led.issued == w.led.issued && x.tickets == w.tickets
    ensures var z, u := NextRead(x), w.led.issued + 1;
            && u in z.tickets && z.tickets[u].Queried?
            && (ReadShows(z, u, P(p)) <==> Exposed(w.dead, owner, Latest(w), P(p)))
  {
    hide Inv, DeadValid, ReadShows, NextRead, Exposed, WholePage, PageOf, Latest;
    SameLatest(w, x);
    NextReadKeeps(w, owner);
    NextReadFrame(w);
    NextReadFrame(x);
    WholeExposes(w.dead, owner, Latest(w), P(p));
    UnburiedRead(NextRead(w), NextRead(x), owner, w.led.issued + 1, p);
  }

  lemma SameLatest(w: World, x: World)
    requires |w.hist| > 0 && x.hist == w.hist
    ensures Latest(x) == Latest(w)
  {
  }

  lemma NextReadFrame(w: World)
    requires |w.hist| > 0
    ensures var z := NextRead(w);
            && z.led.content == w.led.content && z.led.removed == w.led.removed && z.dead == w.dead
            && z.tickets == w.tickets[w.led.issued + 1 := Queried(|w.hist| - 1, |w.hist| - 1, WholePage(Latest(w)), 0)]
  {
  }
}

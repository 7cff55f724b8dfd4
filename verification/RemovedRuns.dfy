/** Runs in which a removed message and a removed part come back, one for each way they can. */
module RemovedRuns {
  import opened Events
  import opened StreamContent
  import opened LedgerModel
  import opened LedgerRuns
  import opened RemovedRows

  const OLD: Message := Message("o", 1, MessageData("", false, 0, 0))
  const OTHER: Message := Message("q", 1, MessageData("", false, 0, 0))
  const NEWEST: Message := Message("n", 2, MessageData("", false, 0, 0))
  const PIECE: Part := Part("p", "q", PartData("a", "", NoOutput, "", 0))
  const NONE: Rows := Rows(map[], map[])
  const STORED: Rows := Rows(map["o" := OLD, "q" := OTHER, "n" := NEWEST], map["p" := PIECE])
  const NEWEST_PAGE: Rows := Rows(map["n" := NEWEST], map[])
  const BOTH: set<RowKey> := {M("o"), P("p")}
  const REVS: map<RowKey, nat> := map[M("o") := 1, P("p") := 1]

  function Tombs(cleared: nat): map<RowKey, Tombstone> { map[M("o") := Tombstone(0, cleared), P("p") := Tombstone(0, cleared)] }

  /** The world before the two rows are removed, and after. */
  function Before(hist: seq<Rows>, issued: nat, open: set<nat>, tickets: map<nat, Read>): World {
    World(LedgerState(EMPTY, {}, map[], map[], map[], issued, open, 0), hist, tickets, EMPTY, {}, {}, map[])
  }

  function After(hist: seq<Rows>, tombs: map<RowKey, Tombstone>, issued: nat, open: set<nat>, tickets: map<nat, Read>): World {
    World(LedgerState(EMPTY, {}, map[], tombs, REVS, issued, open, 0), hist, tickets, EMPTY, BOTH, BOTH, map[])
  }

  // ---- the steps ----

  const REMOVING: seq<Step> := [Stream(MessageRemoved("o"), 0), Stream(PartRemoved("q", "p"), 0)]

  lemma MessageTombed(l: LedgerState)
    requires l == LedgerState(EMPTY, {}, map[], map[], map[], l.issued, l.open, 0)
    ensures AfterEvent(l, MessageRemoved("o"), 0)
         == l.(removed := map[M("o") := Tombstone(0, 0)], rev := map[M("o") := 1])
  {
    assert AfterRemoveMessage(EMPTY, "o") == EMPTY;
    assert Bumped(map[], {M("o")}) == map[M("o") := 1];
    assert AfterEvent(l, MessageRemoved("o"), 0).confirmed == map[];
  }

  lemma PartTombed(l: LedgerState)
    requires l == LedgerState(EMPTY, {}, map[], map[M("o") := Tombstone(0, 0)], map[M("o") := 1], l.issued, l.open, 0)
    ensures AfterEvent(l, PartRemoved("q", "p"), 0) == l.(removed := Tombs(0), rev := REVS)
  {
    assert AfterRemovePart(EMPTY, "p") == EMPTY;
    assert Bumped(map[M("o") := 1], {P("p")}) == REVS;
    assert AfterEvent(l, PartRemoved("q", "p"), 0).confirmed == map[];
  }

  /** The world between the two removals. */
  function Between(hist: seq<Rows>, issued: nat, open: set<nat>, tickets: map<nat, Read>): World {
    World(LedgerState(EMPTY, {}, map[], map[M("o") := Tombstone(0, 0)], map[M("o") := 1], issued, open, 0), hist, tickets,
          EMPTY, {M("o")}, {M("o")}, map[])
  }

  lemma MessageGoes(w: World)
    requires w == Before(w.hist, w.led.issued, w.led.open, w.tickets)
    ensures Streamed(w, MessageRemoved("o"), 0) == Between(w.hist, w.led.issued, w.led.open, w.tickets)
  {
    MessageTombed(w.led);
    hide AfterEvent;
    assert KeysOf({"o"}, {}) == {M("o")};
    assert Less(EMPTY, {"o"}, {}) == EMPTY && Merge(EMPTY, EMPTY) == EMPTY;
  }

  lemma PartGoes(w: World)
    requires w == Between(w.hist, w.led.issued, w.led.open, w.tickets)
    ensures Streamed(w, PartRemoved("q", "p"), 0) == After(w.hist, Tombs(0), w.led.issued, w.led.open, w.tickets)
  {
    PartTombed(w.led);
    hide AfterEvent;
    assert KeysOf({}, {"p"}) == {P("p")};
    assert Less(EMPTY, {}, {"p"}) == EMPTY && Merge(EMPTY, EMPTY) == EMPTY;
    assert {M("o")} + {P("p")} == BOTH;
  }

  lemma RemovingRuns(hist: seq<Rows>, issued: nat, open: set<nat>, tickets: map<nat, Read>, owner: string -> string)
    requires |hist| > 0
    ensures var w := Before(hist, issued, open, tickets);
            LegalRun(w, REMOVING, owner) && Run(w, REMOVING, owner) == After(hist, Tombs(0), issued, open, tickets)
  {
    hide AfterEvent, Run, LegalRun, Streamed;
    var w, x, y := Before(hist, issued, open, tickets), Between(hist, issued, open, tickets), After(hist, Tombs(0), issued, open, tickets);
    var s, u := Stream(MessageRemoved("o"), 0), Stream(PartRemoved("q", "p"), 0);
    MessageGoes(w);
    PartGoes(x);
    RunsStep(x, u, [], y, owner);
    RunsStep(w, s, [u] + [], x, owner);
    assert REMOVING == [s] + ([u] + []);
  }

  // ---- one read ----

  /** The world once its first read began and queried. */
  function Reading(w: World, page: Rows, limit: nat): World
    requires |w.hist| > 0
  {
    w.(led := w.led.(issued := 1, open := {1}), tickets := map[1 := Queried(|w.hist| - 1, |w.hist| - 1, page, limit)])
  }

  lemma OpeningRuns(w: World, page: Rows, limit: nat, owner: string -> string)
    requires |w.hist| > 0 && w.led.issued == 0 && w.led.open == {} && w.tickets == map[] && PageOf(page, Latest(w), limit)
    ensures LegalRun(w, [Begin, Query(1, page, limit)], owner)
    ensures Run(w, [Begin, Query(1, page, limit)], owner) == Reading(w, page, limit)
  {
    hide PageOf, Run, LegalRun, Capture, AfterEvent, AfterPurge, Committed, Less, Merge, KeysOf;
    var x := w.(led := w.led.(issued := 1, open := {1}), tickets := map[1 := Begun(|w.hist| - 1)]);
    assert Do(w, Begin) == x;
    assert Do(x, Query(1, page, limit)).tickets == map[1 := Queried(|w.hist| - 1, |w.hist| - 1, page, limit)];
    RunsStep(x, Query(1, page, limit), [], Reading(w, page, limit), owner);
    RunsStep(w, Begin, [Query(1, page, limit)] + [], x, owner);
    assert [Begin] + ([Query(1, page, limit)] + []) == [Begin, Query(1, page, limit)];
  }

  const VIEW: LedgerView := LedgerView(EMPTY, {}, {}, map[M("o") := true, P("p") := true], REVS)

  lemma ViewTaken(l: LedgerState)
    requires l == LedgerState(EMPTY, {}, map[], Tombs(0), REVS, 1, {1}, 0)
    ensures Capture(l, 1) == VIEW
  {
    assert Capture(l, 1).content.msgs == map[] && Capture(l, 1).content.parts == map[];
    assert Capture(l, 1).removed == VIEW.removed;
  }

  /** A commit whose page does not reach the two rows clears both tombstones. */
  lemma BothCleared(l: LedgerState, page: Rows)
    requires l == LedgerState(EMPTY, {}, map[], Tombs(0), REVS, 1, {1}, 0) && "o" !in page.msgs && "p" !in page.parts
    ensures AfterCommit(l, VIEW, page) == l.(removed := Tombs(1))
    ensures DropNow(l, VIEW, page) == {} && OrphanNow(l, VIEW, page) == {} && ConfirmNow(l, VIEW, page) == {}
  {
    NothingHeld(l, page);
    hide DropNow, OrphanNow, ConfirmNow, ConfirmedKeys;
    assert Less(EMPTY, {}, {}) == EMPTY;
    assert ClearsNow(l, VIEW, page, M("o")) && ClearsNow(l, VIEW, page, P("p"));
    assert AfterCommit(l, VIEW, page).removed == Tombs(1);
  }

  lemma NothingHeld(l: LedgerState, page: Rows)
    ensures DropNow(l, VIEW, page) == {} && OrphanNow(l, VIEW, page) == {} && ConfirmNow(l, VIEW, page) == {}
  {
    hide MovedPast, PendingMsgs;
    assert ConfirmedParts(VIEW, page) == {} && ConfirmedMsgs(VIEW, page) == {};
  }

  const CLOSING: seq<Step> := [TakeView(1), Commit(1)]

  function Composing(hist: seq<Rows>, version: nat, page: Rows, limit: nat): World {
    After(hist, Tombs(0), 1, {1}, map[1 := Queried(version, version, page, limit)])
  }

  function Cleared(hist: seq<Rows>, version: nat): World { After(hist, Tombs(1), 1, {1}, map[1 := Composed(version)]) }

  lemma ClosingRuns(hist: seq<Rows>, version: nat, page: Rows, limit: nat, owner: string -> string)
    requires |hist| > 0 && "o" !in page.msgs && "p" !in page.parts
    ensures var w := Composing(hist, version, page, limit);
            LegalRun(w, CLOSING, owner) && Run(w, CLOSING, owner) == Cleared(hist, version)
  {
    hide PageOf, Run, LegalRun, Capture, AfterCommit, Committed;
    var w := Composing(hist, version, page, limit);
    var x := After(hist, Tombs(0), 1, {1}, map[1 := Captured(version, version, page, limit, VIEW)]);
    ViewTaken(w.led);
    assert Do(w, TakeView(1)) == x by { assert w.tickets[1 := x.tickets[1]] == x.tickets; }
    CommitCleared(hist, version, page, limit);
    RunsStep(x, Commit(1), [], Cleared(hist, version), owner);
    RunsStep(w, TakeView(1), [Commit(1)] + [], x, owner);
    assert CLOSING == [TakeView(1)] + ([Commit(1)] + []);
  }

  lemma CommitCleared(hist: seq<Rows>, version: nat, page: Rows, limit: nat)
    requires |hist| > 0 && "o" !in page.msgs && "p" !in page.parts
    ensures Committed(After(hist, Tombs(0), 1, {1}, map[1 := Captured(version, version, page, limit, VIEW)]), 1) == Cleared(hist, version)
  {
    var x := After(hist, Tombs(0), 1, {1}, map[1 := Captured(version, version, page, limit, VIEW)]);
    hide AfterCommit, DropNow, OrphanNow, ConfirmNow, Committed;
    BothCleared(x.led, page);
    CommitKeepsAll(x, 1);
    assert x.tickets[1 := Composed(version)] == map[1 := Composed(version)];
  }

  // ---- both rows come back ----

  /** Both removed rows come back. */
  ghost predicate BothBack(w: World) { |w.hist| > 0 && w.dead == BOTH && Resurrected(w, M("o")) && Resurrected(w, P("p")) }

  lemma StoredBack(w: World, owner: string -> string)
    requires owner("p") == "q" && |w.hist| > 0 && Latest(w) == STORED && w.dead == BOTH
    requires w.led.removed == map[] || (w.led.removed == Tombs(1) && w.led.issued >= 1)
    ensures BothBack(w)
  {
    hide Resurrected;
    assert M("q") !in BOTH;
    LatestShows(w, owner, M("o"));
    LatestShows(w, owner, P("p"));
  }

  lemma {:induction false} TimelyQuiet(w: World, steps: seq<Step>, owner: string -> string)
    requires LegalRun(w, steps, owner) && forall i :: 0 <= i < |steps| ==> !steps[i].Commit? && !steps[i].End? && !steps[i].Ingest?
    ensures TimelyRun(w, steps, owner)
    decreases |steps|
  {
    hide Legal, Do;
    if steps != [] {
      TimelyQuiet(Do(w, steps[0]), steps[1..], owner);
    }
  }

  lemma {:induction false} RunsJoin(w: World, steps: seq<Step>, more: seq<Step>, owner: string -> string)
    requires LegalRun(w, steps, owner) && LegalRun(Run(w, steps, owner), more, owner)
    ensures LegalRun(w, steps + more, owner) && Run(w, steps + more, owner) == Run(Run(w, steps, owner), more, owner)
    ensures TimelyRun(w, steps + more, owner) <==> TimelyRun(w, steps, owner) && TimelyRun(Run(w, steps, owner), more, owner)
    decreases |steps|
  {
    hide Do, Legal, Timely;
    if steps == [] {
      assert steps + more == more;
    } else {
      assert (steps + more)[1..] == steps[1..] + more && (steps + more)[0] == steps[0];
      RunsJoin(Do(w, steps[0]), steps[1..], more, owner);
    }
  }

  // ---- a page that does not reach the rows ----

  const SHORT_PAGE: seq<Step> := REMOVING + [Begin, Query(1, NEWEST_PAGE, 1)] + CLOSING

  lemma StoredPages()
    ensures PageOf(NEWEST_PAGE, STORED, 1) && PageOf(NONE, NONE, 0)
  {
  }

  lemma NewBefore(rows: Rows)
    ensures NewWorld(rows) == Before([rows], 0, {}, map[])
  {
  }

  /**
   A full page of newer messages clears both tombstones although history still stores the
   rows: the next read of all history shows both.
   */
  lemma ShortPageReturns(owner: string -> string)
    requires owner("p") == "q"
    ensures var w := NewWorld(STORED);
            LegalRun(w, SHORT_PAGE, owner) && BothBack(Run(w, SHORT_PAGE, owner))
  {
    hide Run, LegalRun, PageOf, BothBack, TimelyRun;
    NewBefore(STORED);
    StoredPages();
    var w, x := NewWorld(STORED), After([STORED], Tombs(0), 0, {}, map[]);
    RemovingRuns([STORED], 0, {}, map[], owner);
    OpeningRuns(x, NEWEST_PAGE, 1, owner);
    assert Reading(x, NEWEST_PAGE, 1) == Composing([STORED], 0, NEWEST_PAGE, 1);
    ClosingRuns([STORED], 0, NEWEST_PAGE, 1, owner);
    RunsJoin(w, REMOVING, [Begin, Query(1, NEWEST_PAGE, 1)], owner);
    RunsJoin(w, REMOVING + [Begin, Query(1, NEWEST_PAGE, 1)], CLOSING, owner);
    StoredBack(Cleared([STORED], 0), owner);
  }

  // ---- a read older than the rows ----

  const OLD_READ: seq<Step> := [Begin, Query(1, NONE, 0)] + [Ingest(STORED)] + REMOVING + CLOSING

  lemma StoredTaken(owner: string -> string)
    requires owner("p") == "q"
    ensures Forward(NONE, STORED, {}, owner) && Forward(NONE, STORED, BOTH, owner) && Owned(STORED.parts, owner)
  {
  }

  /** A read that queried before history stored the rows clears both tombstones once they are removed. */
  lemma OldReadReturns(owner: string -> string)
    requires owner("p") == "q"
    ensures var w := NewWorld(NONE);
            LegalRun(w, OLD_READ, owner) && BothBack(Run(w, OLD_READ, owner))
  {
    hide Run, LegalRun, PageOf, BothBack, TimelyRun, Forward;
    NewBefore(NONE);
    StoredPages();
    StoredTaken(owner);
    var w, x := NewWorld(NONE), Before([NONE], 1, {1}, map[1 := Queried(0, 0, NONE, 0)]);
    var hist := [NONE, STORED];
    var y := Before(hist, 1, {1}, x.tickets);
    OpeningRuns(w, NONE, 0, owner);
    assert Reading(w, NONE, 0) == x;
    RunsStep(x, Ingest(STORED), [], y, owner);
    assert [Ingest(STORED)] + [] == [Ingest(STORED)];
    RemovingRuns(hist, 1, {1}, x.tickets, owner);
    ClosingRuns(hist, 0, NONE, 0, owner);
    assert Composing(hist, 0, NONE, 0) == After(hist, Tombs(0), 1, {1}, x.tickets);
    var queried := [Begin, Query(1, NONE, 0)];
    RunsJoin(w, queried, [Ingest(STORED)], owner);
    RunsJoin(w, queried + [Ingest(STORED)], REMOVING, owner);
    RunsJoin(w, queried + [Ingest(STORED)] + REMOVING, CLOSING, owner);
    StoredBack(Cleared(hist, 0), owner);
  }

  // ---- a history that takes removed rows in ----

  const LATE_ROWS: seq<Step> := REMOVING + [Begin, Query(1, NONE, 0)] + CLOSING + [Ingest(STORED)]

  /** A run timely up to its last step, in which history takes the rows in once no tombstone filters them. */
  lemma LateRowsReturn(owner: string -> string)
    requires owner("p") == "q"
    ensures var w := NewWorld(NONE);
            && LegalRun(w, LATE_ROWS, owner) && LegalRun(w, LATE_ROWS[..|LATE_ROWS| - 1], owner)
            && TimelyRun(w, LATE_ROWS[..|LATE_ROWS| - 1], owner) && !TimelyRun(w, LATE_ROWS, owner)
            && BothBack(Run(w, LATE_ROWS, owner))
  {
    hide Run, LegalRun, PageOf, BothBack, TimelyRun, Forward;
    NewBefore(NONE);
    StoredPages();
    StoredTaken(owner);
    var w, x, hist := NewWorld(NONE), After([NONE], Tombs(0), 0, {}, map[]), [NONE];
    var queried := [Begin, Query(1, NONE, 0)];
    RemovingRuns(hist, 0, {}, map[], owner);
    OpeningRuns(x, NONE, 0, owner);
    assert Reading(x, NONE, 0) == Composing(hist, 0, NONE, 0);
    ClosingRuns(hist, 0, NONE, 0, owner);
    var y := Cleared(hist, 0);
    var z := Do(y, Ingest(STORED));
    RunsStep(y, Ingest(STORED), [], z, owner);
    assert [Ingest(STORED)] + [] == [Ingest(STORED)];
    RunsJoin(w, REMOVING, queried, owner);
    RunsJoin(w, REMOVING + queried, CLOSING, owner);
    RunsJoin(w, REMOVING + queried + CLOSING, [Ingest(STORED)], owner);
    TimelyQuiet(w, REMOVING, owner);
    TimelyQuiet(x, queried, owner);
    ClosingTimely(owner);
    IngestUntimely(y, owner);
    StoredBack(z, owner);
    assert LATE_ROWS[..|LATE_ROWS| - 1] == REMOVING + queried + CLOSING;
  }

  lemma IngestUntimely(w: World, owner: string -> string)
    requires |w.hist| > 0 && w.dead == BOTH && !Active(w, M("o")) && LegalRun(w, [Ingest(STORED)], owner)
    ensures !TimelyRun(w, [Ingest(STORED)], owner)
  {
    hide Legal;
    assert M("o") in BOTH && Exposed(BOTH, owner, STORED, M("o"));
  }

  // ---- a history that lags behind an active tombstone ----

  const LAGGING: seq<Step> := REMOVING + [Ingest(STORED)]

  /** The same rows taken in while their tombstones are active: they are stored, and never shown. */
  lemma LaggingStays(owner: string -> string)
    requires owner("p") == "q"
    ensures var w := NewWorld(NONE);
            && LegalRun(w, LAGGING, owner) && TimelyRun(w, LAGGING, owner) && StaysRemoved(w, LAGGING, owner)
            && Run(w, LAGGING, owner).hist == [NONE, STORED] && Run(w, LAGGING, owner).dead == BOTH
  {
    hide Run, LegalRun, TimelyRun, StaysRemoved, Forward;
    NewBefore(NONE);
    StoredTaken(owner);
    var w, x := NewWorld(NONE), After([NONE], Tombs(0), 0, {}, map[]);
    var y := After([NONE, STORED], Tombs(0), 0, {}, map[]);
    RemovingRuns([NONE], 0, {}, map[], owner);
    RunsStep(x, Ingest(STORED), [], y, owner);
    assert [Ingest(STORED)] + [] == [Ingest(STORED)];
    RunsJoin(w, REMOVING, [Ingest(STORED)], owner);
    TimelyQuiet(w, REMOVING, owner);
    TimelyStep(x, Ingest(STORED), [], owner);
    NothingResurrected(NONE, LAGGING, owner);
  }

  lemma ClosingTimely(owner: string -> string)
    ensures LegalRun(Composing([NONE], 0, NONE, 0), CLOSING, owner)
    ensures TimelyRun(Composing([NONE], 0, NONE, 0), CLOSING, owner)
  {
    hide LegalRun, TimelyRun, Do;
    ClosingRuns([NONE], 0, NONE, 0, owner);
    var w := Composing([NONE], 0, NONE, 0);
    assert CLOSING == [TakeView(1)] + [Commit(1)] && [Commit(1)] == [Commit(1)] + [];
    TimelyStep(w, TakeView(1), [Commit(1)], owner);
    ViewTakes(w);
    var x := Do(w, TakeView(1));
    assert Timely(x, Commit(1), owner);
    TimelyStep(x, Commit(1), [], owner);
  }

  lemma ViewTakes(w: World)
    requires |w.hist| > 0
    ensures var x := Do(w, TakeView(1)); x.hist == w.hist && x.dead == w.dead
  {
  }

  lemma TimelyStep(w: World, step: Step, rest: seq<Step>, owner: string -> string)
    requires LegalRun(w, [step] + rest, owner)
    ensures |w.hist| > 0 && |Do(w, step).hist| > 0 && LegalRun(Do(w, step), rest, owner)
    ensures TimelyRun(w, [step] + rest, owner) <==> Timely(w, step, owner) && TimelyRun(Do(w, step), rest, owner)
    ensures TimelyRun(Do(w, step), [], owner)
  {
    hide Legal, Do, Timely;
    assert ([step] + rest)[1..] == rest;
  }

  // ---- a tombstone that expires ----

  const EXPIRING: seq<Step> := REMOVING + [Begin, End(1, LEDGER_TTL + 1)]

  /** Tombstones no read cleared in time are dropped although history still stores the rows. */
  lemma ExpiredReturns(owner: string -> string)
    requires owner("p") == "q"
    ensures var w := NewWorld(STORED);
            LegalRun(w, EXPIRING, owner) && BothBack(Run(w, EXPIRING, owner))
  {
    hide Run, LegalRun, BothBack, TimelyRun;
    NewBefore(STORED);
    var w, x := NewWorld(STORED), After([STORED], Tombs(0), 0, {}, map[]);
    RemovingRuns([STORED], 0, {}, map[], owner);
    var y := Do(x, Begin);
    var z := Do(y, End(1, LEDGER_TTL + 1));
    TombsExpire(x);
    RunsStep(y, End(1, LEDGER_TTL + 1), [], z, owner);
    RunsStep(x, Begin, [End(1, LEDGER_TTL + 1)] + [], y, owner);
    assert [Begin] + ([End(1, LEDGER_TTL + 1)] + []) == [Begin, End(1, LEDGER_TTL + 1)];
    RunsJoin(w, REMOVING, [Begin, End(1, LEDGER_TTL + 1)], owner);
    StoredBack(z, owner);
  }

  lemma TombsExpire(x: World)
    requires x == After([STORED], Tombs(0), 0, {}, map[])
    ensures var y := Do(x, Begin);
            && |y.hist| > 0 && 1 in y.tickets
            && var z := Do(y, End(1, LEDGER_TTL + 1));
            z.hist == [STORED] && z.dead == BOTH && z.led.removed == map[]
  {
    hide Purged, Forgettable;
  }
}

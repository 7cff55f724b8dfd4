/** A run that loses text the stream built: a delta arrives for a part already given up to history. */
module LostText {
  import opened Events
  import opened Utf16
  import opened StreamContent
  import opened LedgerModel
  import opened LedgerRuns
  import opened BuiltContent

  // ---- the run's ledger and reads ----

  const SENT: Message := Message("m", 1, MessageData("", false, 0, 0))
  const PIECE: Part := Part("p", "m", PartData("a", "", NoOutput, "", 0))
  const STORED: Rows := Rows(map["m" := SENT], map["p" := PIECE])
  const PIECE_LIVE: LivePart :=
    LivePart(PIECE.(data := StripFields(PIECE.data)), map[Text := StreamField("a", 1), ToolInput := StreamField("", 0)], false)
  const HELD: Content := Content(map["m" := SENT], map["p" := PIECE_LIVE])
  const REVS: map<RowKey, nat> := map[M("m") := 2, P("p") := 1]
  const ALL: map<RowKey, nat> := map[M("m") := 1, P("p") := 1]

  /** The ledger of the run: what it holds, settled, confirmed, its revisions and tickets. */
  function RunLedger(c: Content, settled: set<string>, confirmed: map<RowKey, nat>, rev: map<RowKey, nat>, issued: nat, open: set<nat>): LedgerState {
    LedgerState(c, settled, confirmed, map[], rev, issued, open, 0)
  }

  function RunWorld(led: LedgerState, hist: seq<Rows>, tickets: map<nat, Read>, sec: map<RowKey, nat>): World {
    World(led, hist, tickets, HELD, {}, {}, sec)
  }

  const TURN: World := RunWorld(RunLedger(HELD, {}, map[], REVS, 0, {}), [Rows(map[], map[])], map[], map[])
  const INGESTED: World := RunWorld(RunLedger(HELD, {"m"}, map[], REVS, 0, {}), [Rows(map[], map[]), STORED], map[], map[])
  const VIEW: LedgerView := LedgerView(HELD, {"m"}, {}, map[], REVS)
  const CAPTURED: World :=
    RunWorld(RunLedger(HELD, {"m"}, map[], REVS, 1, {1}), INGESTED.hist, map[1 := Captured(1, 1, STORED, 0, VIEW)], map[])
  const CONFIRMED: World :=
    RunWorld(RunLedger(HELD, {"m"}, ALL, REVS, 1, {1}), INGESTED.hist, map[1 := Composed(1)], ALL)
  const PURGED: World := RunWorld(RunLedger(EMPTY, {}, map[], map[], 1, {}), INGESTED.hist, map[], ALL)

  const OPENED: World :=
    World(RunLedger(Content(map["m" := SENT], map[]), {}, map[], map[M("m") := 1], 0, {}), TURN.hist, map[],
          Content(map["m" := SENT], map[]), {}, {}, map[])

  lemma MessageStreams()
    ensures Do(NewWorld(Rows(map[], map[])), Stream(MessageUpserted(SENT), 0)) == OPENED
  {
    var w, e := NewWorld(Rows(map[], map[])), MessageUpserted(SENT);
    assert Apply(EMPTY, e) == OPENED.owed;
    assert Bumped(map[], {M("m")}) == map[M("m") := 1];
    NoRemovals(w, e, 0);
    assert Merge(EMPTY, OPENED.owed) == OPENED.owed;
    assert AfterEvent(w.led, e, 0) == OPENED.led;
  }

  /** An event that removes nothing only adds what the ledger then holds. */
  lemma NoRemovals(w: World, ev: Event, now: int)
    requires Removals(ev) == ({}, {})
    ensures Streamed(w, ev, now) == w.(led := AfterEvent(w.led, ev, now), owed := Merge(w.owed, AfterEvent(w.led, ev, now).content))
  {
    hide AfterEvent, Merge;
    assert Less(w.owed, {}, {}) == w.owed;
    assert KeysOf({}, {}) == {};
  }

  lemma PieceStreams()
    ensures Do(OPENED, Stream(PartUpserted(PIECE, false), 0)) == TURN
  {
    var e := PartUpserted(PIECE, false);
    PieceBuilds();
    PieceLedger();
    NoRemovals(OPENED, e, 0);
    hide AfterEvent, UpsertPart;
    assert Merge(OPENED.owed, HELD) == HELD;
  }

  lemma PieceBuilds()
    ensures UpsertPart(None, PIECE, false) == PIECE_LIVE
    ensures Apply(OPENED.owed, PartUpserted(PIECE, false)) == HELD
  {
    var values := StreamedFields(PIECE.data);
    assert values == map[Text := "a", ToolInput := ""];
    assert Units("a") == 1 && Units("") == 0;
    assert UpsertPart(None, PIECE, false).fields == PIECE_LIVE.fields;
  }

  lemma PieceLedger()
    ensures AfterEvent(OPENED.led, PartUpserted(PIECE, false), 0) == TURN.led
  {
    PieceBuilds();
    hide Apply, UpsertPart;
    assert Bumped(map[M("m") := 1], {P("p"), M("m")}) == REVS;
  }

  lemma TurnIngested()
    ensures Do(Do(TURN, Settle), Ingest(STORED)) == INGESTED
  {
    assert HELD.msgs.Keys == {"m"};
    assert AfterSettle(TURN.led).settled == {"m"};
  }

  lemma ReadCaptured()
    ensures Do(Do(Do(INGESTED, Begin), Query(1, STORED, 0)), TakeView(1)) == CAPTURED
  {
    var w := Do(INGESTED, Begin);
    assert w.led == CAPTURED.led && w.tickets == map[1 := Begun(1)];
    assert Capture(CAPTURED.led, 1) == VIEW by {
      assert Capture(CAPTURED.led, 1).content.msgs == HELD.msgs && Capture(CAPTURED.led, 1).content.parts == HELD.parts;
    }
    hide Capture;
    var x := Do(w, Query(1, STORED, 0));
    assert x.tickets == map[1 := Queried(1, 1, STORED, 0)];
    assert Do(x, TakeView(1)).tickets == CAPTURED.tickets;
  }

  lemma PieceConfirms()
    ensures DroppedMsgs(VIEW, STORED) == {} && OrphanParts(VIEW, STORED) == {}
    ensures ConfirmedKeys(VIEW, STORED) == {M("m"), P("p")}
  {
    assert DroppedMsgs(VIEW, STORED) == {} && OrphanParts(VIEW, STORED) == {};
    assert Covers(PIECE_LIVE, PIECE.data);
    assert ConfirmedParts(VIEW, STORED) == {"p"};
    assert PendingMsgs(VIEW, STORED) == {};
    assert ConfirmedMsgs(VIEW, STORED) == {"m"};
    assert (set p | p in {"p"} :: P(p)) == {P("p")} && (set id | id in {"m"} :: M(id)) == {M("m")};
  }

  lemma ReadCommits()
    ensures Do(CAPTURED, Commit(1)) == CONFIRMED
  {
    CommitRuns();
    hide Committed, Capture, AfterEvent, AfterPurge, Less, Merge, AfterSettle, KeysOf;
  }

  lemma CommitRuns()
    ensures Committed(CAPTURED, 1) == CONFIRMED
  {
    hide DropNow, OrphanNow, ConfirmNow, AfterCommit, ClearsNow, Committed;
    CommitDecides();
    CommitLedger();
    CommitKeepsAll(CAPTURED, 1);
    assert CAPTURED.tickets[1 := Composed(1)] == map[1 := Composed(1)];
    var ks := {M("m"), P("p")};
    assert map[] + (map k | k in ks :: 1) == ALL;
  }

  lemma CommitDecides()
    ensures DropNow(CAPTURED.led, VIEW, STORED) == {} && OrphanNow(CAPTURED.led, VIEW, STORED) == {}
    ensures ConfirmNow(CAPTURED.led, VIEW, STORED) == {M("m"), P("p")}
  {
    PieceConfirms();
    hide DroppedMsgs, OrphanParts, ConfirmedKeys;
  }

  lemma CommitLedger()
    ensures AfterCommit(CAPTURED.led, VIEW, STORED) == CONFIRMED.led
  {
    hide DropNow, OrphanNow, ConfirmNow, ClearsNow;
    CommitDecides();
    LedgerKeepsAll(CAPTURED.led, VIEW, STORED);
    var ks := {M("m"), P("p")};
    assert map[] + (map k | k in ks :: 1) == ALL;
  }

  lemma LedgerKeepsAll(l: LedgerState, v: LedgerView, d: Rows)
    requires DropNow(l, v, d) == {} && OrphanNow(l, v, d) == {} && l.removed == map[]
    ensures AfterCommit(l, v, d) == l.(confirmed := l.confirmed + (map k | k in ConfirmNow(l, v, d) :: l.issued))
  {
    hide DropNow, OrphanNow, ConfirmNow, ClearsNow;
    assert Less(l.content, {}, {}) == l.content;
    assert AfterCommit(l, v, d).removed == map[];
  }

  lemma ReadEnds()
    ensures Do(CONFIRMED, End(1, 0)) == PURGED && GivenUp(CONFIRMED, 1) == {P("p")}
  {
    assert CONFIRMED.led.open - {1} == {};
    BothPurged();
    LedgerPurged();
    hide Purged, AfterPurge;
    assert CONFIRMED.tickets - {1} == map[];
  }

  const CLOSED: LedgerState := CONFIRMED.led.(open := {})

  lemma BothPurged()
    ensures Purged(CLOSED) == {M("m"), P("p")}
  {
  }

  lemma LedgerPurged()
    ensures AfterPurge(CLOSED, 0) == PURGED.led
  {
    BothPurged();
    hide Purged;
    assert (set k | k in {M("m"), P("p")} && k.M? :: k.id) == {"m"} by { assert M("m") in {M("m"), P("p")}; }
    assert (set k | k in {M("m"), P("p")} && k.P? :: k.id) == {"p"} by { assert P("p") in {M("m"), P("p")}; }
    var l := AfterPurge(CLOSED, 0);
    assert l.content == EMPTY && l.settled == {} && l.confirmed == map[] && l.removed == map[];
    assert l.rev == map[];
  }

  const MORE: Event := PartDelta("p", Text, 1, "b")
  const BUILDING: seq<Step> := [Stream(MessageUpserted(SENT), 0), Stream(PartUpserted(PIECE, false), 0), Settle, Ingest(STORED)]
  const READING: seq<Step> := [Begin, Query(1, STORED, 0), TakeView(1), Commit(1), End(1, 0)]
  const LOSING: seq<Step> := [Stream(MORE, 0), Begin, Query(2, STORED, 0)]

  lemma MoreIgnored()
    ensures var w := Do(PURGED, Stream(MORE, 0));
            w.led == PURGED.led.(rev := map[P("p") := 1]) && w.hist == PURGED.hist && w.tickets == map[] && w.gone == {}
  {
    assert Bumped(map[], {P("p")}) == map[P("p") := 1];
    assert KeysOf({}, {}) == {};
    assert AfterEvent(PURGED.led, MORE, 0).removed == map[];
    assert AfterEvent(PURGED.led, MORE, 0).confirmed == map[];
  }

  lemma StoredForward(owner: string -> string)
    requires owner("p") == "m"
    ensures Forward(Rows(map[], map[]), STORED, {}, owner) && Owned(STORED.parts, owner) && PageOf(STORED, STORED, 0)
  {
  }

  lemma BuildingLegal(owner: string -> string)
    requires owner("p") == "m"
    ensures Legal(NewWorld(Rows(map[], map[])), Stream(MessageUpserted(SENT), 0), owner)
    ensures Legal(OPENED, Stream(PartUpserted(PIECE, false), 0), owner)
    ensures |Do(TURN, Settle).hist| > 0 && Legal(Do(TURN, Settle), Ingest(STORED), owner) && Legal(TURN, Settle, owner)
  {
    StoredForward(owner);
    hide Forward;
    assert Do(TURN, Settle).hist == TURN.hist && Do(TURN, Settle).gone == {};
  }

  lemma BuildingRuns(owner: string -> string)
    requires owner("p") == "m"
    ensures var w := NewWorld(Rows(map[], map[])); LegalRun(w, BUILDING, owner) && Run(w, BUILDING, owner) == INGESTED
  {
    hide Do, Legal, Run, LegalRun;
    var w := NewWorld(Rows(map[], map[]));
    BuildingLegal(owner);
    MessageStreams();
    PieceStreams();
    TurnIngested();
    var s4: seq<Step> := [Ingest(STORED)] + [];
    var s3, s2 := [Settle] + s4, [Stream(PartUpserted(PIECE, false), 0)] + ([Settle] + s4);
    RunsStep(Do(TURN, Settle), Ingest(STORED), [], INGESTED, owner);
    RunsStep(TURN, Settle, s4, Do(TURN, Settle), owner);
    RunsStep(OPENED, Stream(PartUpserted(PIECE, false), 0), s3, TURN, owner);
    RunsStep(w, Stream(MessageUpserted(SENT), 0), s2, OPENED, owner);
    assert BUILDING == [Stream(MessageUpserted(SENT), 0)] + s2;
  }

  lemma ReadingRuns(owner: string -> string)
    requires owner("p") == "m"
    ensures LegalRun(INGESTED, READING, owner) && Run(INGESTED, READING, owner) == PURGED
  {
    hide Do, Legal, Run, LegalRun;
    ReadingLegal(owner);
    ReadCaptured();
    ReadCommits();
    ReadEnds();
    var b := Do(INGESTED, Begin);
    var q := Do(b, Query(1, STORED, 0));
    var s4: seq<Step> := [End(1, 0)] + [];
    var s3, s2, s1 := [Commit(1)] + s4, [TakeView(1)] + ([Commit(1)] + s4), [Query(1, STORED, 0)] + ([TakeView(1)] + ([Commit(1)] + s4));
    RunsStep(CONFIRMED, End(1, 0), [], PURGED, owner);
    RunsStep(CAPTURED, Commit(1), s4, CONFIRMED, owner);
    RunsStep(q, TakeView(1), s3, CAPTURED, owner);
    RunsStep(b, Query(1, STORED, 0), s2, q, owner);
    RunsStep(INGESTED, Begin, s1, b, owner);
    assert READING == [Begin] + s1;
  }

  lemma ReadingLegal(owner: string -> string)
    requires owner("p") == "m"
    ensures var b := Do(INGESTED, Begin);
            && Legal(INGESTED, Begin, owner) && |b.hist| > 0 && Legal(b, Query(1, STORED, 0), owner)
            && |Do(b, Query(1, STORED, 0)).hist| > 0 && Legal(Do(b, Query(1, STORED, 0)), TakeView(1), owner)
            && Legal(CAPTURED, Commit(1), owner) && Legal(CONFIRMED, End(1, 0), owner)
  {
    StoredForward(owner);
    hide Capture;
    var b := Do(INGESTED, Begin);
    assert b.tickets == map[1 := Begun(1)] && b.hist == INGESTED.hist;
    assert Latest(b) == STORED;
  }

  lemma LosingLegal(owner: string -> string)
    requires owner("p") == "m"
    ensures Legal(PURGED, Stream(MORE, 0), owner)
    ensures var x := Do(PURGED, Stream(MORE, 0)); |x.hist| > 0 && Legal(x, Begin, owner) && |Do(x, Begin).hist| > 0
    ensures var y := Do(Do(PURGED, Stream(MORE, 0)), Begin); Legal(y, Query(2, STORED, 0), owner)
    ensures var z := Do(Do(Do(PURGED, Stream(MORE, 0)), Begin), Query(2, STORED, 0));
            && 2 in z.tickets && z.tickets[2] == Queried(1, 1, STORED, 0)
            && "p" !in z.led.content.parts && "m" !in z.led.content.msgs && z.led.removed == map[]
  {
    MoreIgnored();
    StoredForward(owner);
    hide Forward, PageOf, AfterEvent, Merge, Less;
    var y := Do(Do(PURGED, Stream(MORE, 0)), Begin);
    assert y.tickets == map[2 := Begun(1)] && Latest(y) == STORED;
  }

  lemma LosingRuns(owner: string -> string)
    requires owner("p") == "m"
    ensures LegalRun(PURGED, LOSING, owner)
    ensures var w := Run(PURGED, LOSING, owner);
            && 2 in w.tickets && w.tickets[2] == Queried(1, 1, STORED, 0)
            && "p" !in w.led.content.parts && "m" !in w.led.content.msgs && w.led.removed == map[]
  {
    hide Run, LegalRun, Do, Legal;
    LosingLegal(owner);
    var x := Do(PURGED, Stream(MORE, 0));
    var y := Do(x, Begin);
    var z := Do(y, Query(2, STORED, 0));
    var s2: seq<Step> := [Query(2, STORED, 0)] + [];
    var s1 := [Begin] + s2;
    RunsStep(y, Query(2, STORED, 0), [], z, owner);
    RunsStep(x, Begin, s2, y, owner);
    RunsStep(PURGED, Stream(MORE, 0), s1, x, owner);
    assert LOSING == [Stream(MORE, 0)] + s1;
  }

  /** What a read shows of rows the ledger does not hold is what history stores. */
  lemma StoredShown(l: LedgerState, t: nat)
    requires "p" !in l.content.parts && "m" !in l.content.msgs && l.removed == map[]
    ensures var r := Compose(Capture(l, t), STORED, 0); "m" in r.msgs && "p" in r.parts && r.parts["p"] == PIECE
  {
    hide DroppedMsgs, EndingCovered, BeforePage, OverlayPart;
  }

  lemma FoldedOne(c: Content, ev: Event, rest: seq<Event>)
    ensures Folded(c, [ev] + rest) == Folded(Apply(c, ev), rest) && Folded(Apply(c, ev), []) == Apply(c, ev)
  {
    assert ([ev] + rest)[1..] == rest;
  }

  lemma LosingBuilds()
    ensures Folded(EMPTY, [MessageUpserted(SENT), PartUpserted(PIECE, false), MORE]).parts.Keys == {"p"}
    ensures var lp := Folded(EMPTY, [MessageUpserted(SENT), PartUpserted(PIECE, false), MORE]).parts["p"];
            Text in lp.fields && lp.fields[Text].b == "ab"
  {
    hide Folded, UpsertPart;
    PieceBuilds();
    assert Apply(EMPTY, MessageUpserted(SENT)) == OPENED.owed;
    FoldedOne(EMPTY, MessageUpserted(SENT), [PartUpserted(PIECE, false), MORE]);
    FoldedOne(OPENED.owed, PartUpserted(PIECE, false), [MORE]);
    FoldedOne(HELD, MORE, []);
    assert [MORE] + [] == [MORE] && [PartUpserted(PIECE, false)] + [MORE] == [PartUpserted(PIECE, false), MORE];
    assert [MessageUpserted(SENT)] + [PartUpserted(PIECE, false), MORE] == [MessageUpserted(SENT), PartUpserted(PIECE, false), MORE];
    assert Folded(EMPTY, [MessageUpserted(SENT), PartUpserted(PIECE, false), MORE]) == Apply(HELD, MORE);
    assert "a" + "b" == "ab";
  }

  lemma {:induction false} StreamsOn(steps: seq<Step>, more: seq<Step>)
    ensures Streams(steps + more) == Streams(steps) + Streams(more)
  {
    if steps == [] {
      assert steps + more == more;
    } else {
      assert (steps + more)[1..] == steps[1..] + more && (steps + more)[0] == steps[0];
      StreamsOn(steps[1..], more);
    }
  }

  /**
   The events stream "ab", history stores "a", and the read shows "a": the part was given up
   while its turn still ran.
   */
  lemma TextLost(owner: string -> string)
    requires owner("p") == "m"
    ensures var w, steps := NewWorld(Rows(map[], map[])), BUILDING + READING + LOSING;
            && LegalRun(w, steps, owner)
            && Folded(EMPTY, Streams(steps)).parts.Keys == {"p"}
            && var x, lp := Run(w, steps, owner), Folded(EMPTY, Streams(steps)).parts["p"];
            && Text in lp.fields && lp.fields[Text].b == "ab"
            && 2 in x.tickets && x.tickets[2].Queried?
            && var r := Compose(Capture(x.led, 2), x.tickets[2].page, 0);
            "p" in r.parts && r.parts["p"].data.text == "a"
  {
    var w := NewWorld(Rows(map[], map[]));
    BuildingRuns(owner);
    ReadingRuns(owner);
    LosingRuns(owner);
    LosingStreams();
    LosingBuilds();
    StoredShown(Run(PURGED, LOSING, owner).led, 2);
    hide Run, LegalRun, Folded, Compose, Capture, Streams;
    RunsOn(w, BUILDING, READING, owner);
    RunsOn(w, BUILDING + READING, LOSING, owner);
  }

  lemma {:induction false} Quiet(steps: seq<Step>)
    requires forall i :: 0 <= i < |steps| ==> !steps[i].Stream?
    ensures Streams(steps) == []
  {
    if steps != [] {
      Quiet(steps[1..]);
    }
  }

  lemma LosingStreams()
    ensures Streams(BUILDING + READING + LOSING) == [MessageUpserted(SENT), PartUpserted(PIECE, false), MORE]
  {
    StreamsOn(BUILDING + READING, LOSING);
    StreamsOn(BUILDING, READING);
    Quiet(LOSING[1..]);
    assert LOSING == [Stream(MORE, 0)] + LOSING[1..];
    Quiet(READING);
    Quiet(BUILDING[2..]);
    assert BUILDING[1..] == [BUILDING[1]] + BUILDING[2..] && BUILDING == [BUILDING[0]] + BUILDING[1..];
  }
}

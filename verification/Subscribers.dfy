/**
 What each subscriber of a session is given: where it continues from, and every frame
 sent to it since. `Continuous` is what every locked step keeps.
 */
module Subscribers {
  import opened Events
  import opened ReplayLog
  import opened SessionModel
  import CR = CompactedReplay
  import C = Client
  import CC = ClientContent
  import SR = SessionRuns

  const SUBSCRIBER_BUFFER: nat := 256

  /** One frame to a subscriber; a control frame is not logged and moves no cursor. */
  datatype FrameMsg = FrameMsg(seqNo: nat, ev: Event, logged: bool)

  datatype Reason = SlowConsumer | SourceRestarted | Shutdown

  /**
   One consumer: where it continues from, the hello or replay it starts with, every frame
   sent to it and those it has not taken yet.
   */
  datatype Subscription = Subscription(
    epoch: nat,
    cursor: nat,
    resumed: bool,
    hello: C.Client,
    replay: seq<Entry>,
    pushed: seq<FrameMsg>,
    buffer: seq<FrameMsg>)

  /** How a subscription was reset, and what it had been given. */
  datatype Ending = Ending(reason: Reason, sub: Subscription)

  datatype Cursor = NoCursor | Cursor(epoch: nat, seqNo: nat)

  // ---- what a subscriber has been given ----

  function Logged(ms: seq<FrameMsg>): seq<CR.Published> {
    if ms == [] then []
    else
      var m := ms[|ms| - 1];
      Logged(ms[..|ms| - 1]) + if m.logged then [CR.Published(m.seqNo, m.ev)] else []
  }

  /**
   From its cursor on, a subscriber attached after the first `at` operations has the replay
   and then every frame logged since.
   */
  ghost predicate Continuous(sub: Subscription, at: nat, maxBytes: nat, maxEntries: nat, ops: seq<CR.Op>) {
    && at <= |ops|
    && var l0 := CR.Run(maxBytes, maxEntries, ops[..at]);
    && var l := CR.Run(maxBytes, maxEntries, ops);
    && |l0.published| <= |l.published|
    && Logged(sub.pushed) == l.published[|l0.published|..]
    && (if sub.resumed then l0.floor <= sub.cursor <= l0.last && sub.replay == After(l0.entries, sub.cursor)
        else sub.cursor == l0.last && sub.replay == [])
    && |sub.buffer| <= SUBSCRIBER_BUFFER
    && |sub.buffer| <= |sub.pushed| && sub.buffer == sub.pushed[|sub.pushed| - |sub.buffer|..]
  }

  ghost predicate AllContinuous(subs: map<nat, Subscription>, at: map<nat, nat>, maxBytes: nat, maxEntries: nat,
                                ops: seq<CR.Op>) {
    forall id :: id in subs ==> id in at && Continuous(subs[id], at[id], maxBytes, maxEntries, ops)
  }

  function Sent(sub: Subscription, m: FrameMsg): Subscription {
    sub.(pushed := sub.pushed + [m], buffer := sub.buffer + [m])
  }

  predicate Full(sub: Subscription) { |sub.buffer| >= SUBSCRIBER_BUFFER }

  /** Every subscriber with room gets the frame; a full one is gone. */
  function Fanned(subs: map<nat, Subscription>, m: FrameMsg): map<nat, Subscription> {
    map id | id in subs && !Full(subs[id]) :: Sent(subs[id], m)
  }

  /** The full ones: they are reset instead of missing the frame. */
  function Slow(subs: map<nat, Subscription>): map<nat, Ending> {
    map id | id in subs && Full(subs[id]) :: Ending(SlowConsumer, subs[id])
  }

  /** Every number given out is of a live, a reset or a closed subscription, and only a full one is reset as slow. */
  ghost predicate Numbered(next: nat, subs: map<nat, Subscription>, ended: map<nat, Ending>, left: set<nat>) {
    && (forall id :: id in subs ==> id < next && id !in ended)
    && (forall id :: id in ended ==> id < next && (ended[id].reason == SlowConsumer ==> Full(ended[id].sub)))
    && (forall id: nat :: id < next ==> id in subs || id in ended || id in left)
  }

  lemma AttachedNumbered(next: nat, subs: map<nat, Subscription>, ended: map<nat, Ending>, left: set<nat>, sub: Subscription)
    requires Numbered(next, subs, ended, left)
    ensures Numbered(next + 1, subs[next := sub], ended, left)
  {
  }

  lemma FannedNumbered(next: nat, subs: map<nat, Subscription>, ended: map<nat, Ending>, left: set<nat>, m: FrameMsg)
    requires Numbered(next, subs, ended, left)
    ensures Numbered(next, Fanned(subs, m), ended + Slow(subs), left)
  {
    hide Full;
  }

  // ---- the operations of the log a publish performs ----

  lemma RunAppend(maxBytes: nat, maxEntries: nat, ops: seq<CR.Op>, op: CR.Op)
    ensures CR.Run(maxBytes, maxEntries, ops + [op]) == CR.Do(CR.Run(maxBytes, maxEntries, ops), op)
  {
    assert (ops + [op])[..|ops|] == ops;
  }

  lemma LoggedSent(ms: seq<FrameMsg>, m: FrameMsg)
    ensures Logged(ms + [m]) == Logged(ms) + if m.logged then [CR.Published(m.seqNo, m.ev)] else []
  {
    assert (ms + [m])[..|ms|] == ms;
  }

  /** An operation that publishes nothing leaves every subscriber continuous. */
  lemma QuietOp(sub: Subscription, at: nat, maxBytes: nat, maxEntries: nat, ops: seq<CR.Op>, op: CR.Op)
    requires Continuous(sub, at, maxBytes, maxEntries, ops) && (op.Trim? || !op.encodable)
    ensures Continuous(sub, at, maxBytes, maxEntries, ops + [op])
  {
    RunAppend(maxBytes, maxEntries, ops, op);
    assert (ops + [op])[..at] == ops[..at];
  }

  /** A published frame, sent to a subscriber with room, leaves it continuous. */
  lemma PublishedSent(sub: Subscription, at: nat, maxBytes: nat, maxEntries: nat, ops: seq<CR.Op>, ev: Event, size: nat)
    requires Continuous(sub, at, maxBytes, maxEntries, ops) && !Full(sub)
    ensures var s := CR.Run(maxBytes, maxEntries, ops).last + 1;
            Continuous(Sent(sub, FrameMsg(s, ev, true)), at, maxBytes, maxEntries, ops + [CR.Publish(ev, size, true)])
  {
    hide CR.Run, CR.Do, After, Logged;
    var op := CR.Publish(ev, size, true);
    var l := CR.Run(maxBytes, maxEntries, ops);
    RunAppend(maxBytes, maxEntries, ops, op);
    CR.PublishedAdds(l, ev, size);
    LoggedSent(sub.pushed, FrameMsg(l.last + 1, ev, true));
    assert (ops + [op])[..at] == ops[..at];
    SuffixAppend(l.published, CR.Published(l.last + 1, ev), |CR.Run(maxBytes, maxEntries, ops[..at]).published|);
    SentBuffer(sub, FrameMsg(l.last + 1, ev, true));
  }

  lemma SuffixAppend<T>(s: seq<T>, x: T, n: nat)
    requires n <= |s|
    ensures (s + [x])[n..] == s[n..] + [x]
  {
  }

  lemma SentBuffer(sub: Subscription, m: FrameMsg)
    requires |sub.buffer| <= |sub.pushed| && sub.buffer == sub.pushed[|sub.pushed| - |sub.buffer|..]
    ensures var t := Sent(sub, m); t.buffer == t.pushed[|t.pushed| - |t.buffer|..]
  {
  }

  lemma ControlSent(sub: Subscription, at: nat, maxBytes: nat, maxEntries: nat, ops: seq<CR.Op>, m: FrameMsg)
    requires Continuous(sub, at, maxBytes, maxEntries, ops) && !Full(sub) && !m.logged
    ensures Continuous(Sent(sub, m), at, maxBytes, maxEntries, ops)
  {
    LoggedSent(sub.pushed, m);
    SentBuffer(sub, m);
  }

  /** A control frame leaves every subscriber with room continuous, and logs nothing. */
  lemma ControlFanned(subs: map<nat, Subscription>, at: map<nat, nat>, maxBytes: nat, maxEntries: nat, ops: seq<CR.Op>, m: FrameMsg)
    requires AllContinuous(subs, at, maxBytes, maxEntries, ops) && !m.logged
    ensures AllContinuous(Fanned(subs, m), at, maxBytes, maxEntries, ops)
    ensures forall id :: id in Fanned(subs, m) ==> Logged(Fanned(subs, m)[id].pushed) == Logged(subs[id].pushed)
  {
    forall id | id in subs && !Full(subs[id])
      ensures Continuous(Sent(subs[id], m), at[id], maxBytes, maxEntries, ops)
      ensures Logged(Sent(subs[id], m).pushed) == Logged(subs[id].pushed)
    {
      ControlSent(subs[id], at[id], maxBytes, maxEntries, ops, m);
      LoggedSent(subs[id].pushed, m);
    }
  }

  lemma TakenContinuous(subs: map<nat, Subscription>, at: map<nat, nat>, maxBytes: nat, maxEntries: nat, ops: seq<CR.Op>, id: nat)
    requires AllContinuous(subs, at, maxBytes, maxEntries, ops) && id in subs && subs[id].buffer != []
    ensures AllContinuous(subs[id := subs[id].(buffer := subs[id].buffer[1..])], at, maxBytes, maxEntries, ops)
  {
    hide CR.Run, After, Logged;
    assert Continuous(subs[id].(buffer := subs[id].buffer[1..]), at[id], maxBytes, maxEntries, ops);
  }

  lemma FannedContinuous(subs: map<nat, Subscription>, at: map<nat, nat>, maxBytes: nat, maxEntries: nat, ops: seq<CR.Op>, ev: Event, size: nat)
    requires AllContinuous(subs, at, maxBytes, maxEntries, ops)
    ensures var s := CR.Run(maxBytes, maxEntries, ops).last + 1;
            AllContinuous(Fanned(subs, FrameMsg(s, ev, true)), at, maxBytes, maxEntries, ops + [CR.Publish(ev, size, true)])
  {
    hide Continuous, CR.Run, Sent, Full;
    forall id | id in subs && !Full(subs[id])
      ensures Continuous(Sent(subs[id], FrameMsg(CR.Run(maxBytes, maxEntries, ops).last + 1, ev, true)),
                         at[id], maxBytes, maxEntries, ops + [CR.Publish(ev, size, true)])
    {
      PublishedSent(subs[id], at[id], maxBytes, maxEntries, ops, ev, size);
    }
  }

  lemma QuietContinuous(subs: map<nat, Subscription>, at: map<nat, nat>, maxBytes: nat, maxEntries: nat, ops: seq<CR.Op>, op: CR.Op)
    requires AllContinuous(subs, at, maxBytes, maxEntries, ops) && (op.Trim? || !op.encodable)
    ensures AllContinuous(subs, at, maxBytes, maxEntries, ops + [op])
  {
    forall id | id in subs
      ensures Continuous(subs[id], at[id], maxBytes, maxEntries, ops + [op])
    {
      QuietOp(subs[id], at[id], maxBytes, maxEntries, ops, op);
    }
  }

  /** A publish and the trim it may cause leave every subscriber that got its frame continuous. */
  lemma PublishContinuous(subs: map<nat, Subscription>, at: map<nat, nat>, maxBytes: nat, maxEntries: nat, ops: seq<CR.Op>,
                          ev: Event, size: nat, encodable: bool, trims: seq<CR.Op>)
    requires AllContinuous(subs, at, maxBytes, maxEntries, ops)
    requires trims == [] || exists b: nat, n: nat :: trims == [CR.Trim(b, n)]
    ensures var s := CR.Run(maxBytes, maxEntries, ops).last + 1;
            var left := if encodable then Fanned(subs, FrameMsg(s, ev, true)) else subs;
            AllContinuous(left, at, maxBytes, maxEntries, ops + [CR.Publish(ev, size, encodable)] + trims)
  {
    hide CR.Run, Continuous;
    var op := CR.Publish(ev, size, encodable);
    var s := CR.Run(maxBytes, maxEntries, ops).last + 1;
    var left := if encodable then Fanned(subs, FrameMsg(s, ev, true)) else subs;
    if encodable {
      FannedContinuous(subs, at, maxBytes, maxEntries, ops, ev, size);
    } else {
      QuietContinuous(subs, at, maxBytes, maxEntries, ops, op);
    }
    if trims != [] {
      QuietContinuous(left, at, maxBytes, maxEntries, ops + [op], trims[0]);
    } else {
      assert ops + [op] + trims == ops + [op];
    }
  }

  /** A new subscriber, greeted or resumed, starts continuous. */
  lemma AttachContinuous(subs: map<nat, Subscription>, at: map<nat, nat>, maxBytes: nat, maxEntries: nat,
                         ops: seq<CR.Op>, id: nat, sub: Subscription)
    requires AllContinuous(subs, at, maxBytes, maxEntries, ops) && id !in subs
    requires sub.pushed == [] && sub.buffer == []
    requires var l := CR.Run(maxBytes, maxEntries, ops);
             if sub.resumed then l.floor <= sub.cursor <= l.last && sub.replay == After(l.entries, sub.cursor)
             else sub.cursor == l.last && sub.replay == []
    ensures AllContinuous(subs[id := sub], at[id := |ops|], maxBytes, maxEntries, ops)
  {
    hide Continuous, CR.Run, After;
    StartsContinuous(maxBytes, maxEntries, ops, sub);
  }

  lemma StartsContinuous(maxBytes: nat, maxEntries: nat, ops: seq<CR.Op>, sub: Subscription)
    requires sub.pushed == [] && sub.buffer == []
    requires var l := CR.Run(maxBytes, maxEntries, ops);
             if sub.resumed then l.floor <= sub.cursor <= l.last && sub.replay == After(l.entries, sub.cursor)
             else sub.cursor == l.last && sub.replay == []
    ensures Continuous(sub, |ops|, maxBytes, maxEntries, ops)
  {
    hide CR.Run, After;
    assert ops[..|ops|] == ops;
    var ps := CR.Run(maxBytes, maxEntries, ops).published;
    assert ps[|ps|..] == [];
  }

  /**
   From attach on, whatever the cursor, the log's trims and the other subscribers: folding
   the replay and the frames sent gives a client exactly what folding everything published
   after its cursor gives.
   */
  lemma NoSilentGap(sub: Subscription, at: nat, maxBytes: nat, maxEntries: nat, ops: seq<CR.Op>, c: C.Client)
    requires Continuous(sub, at, maxBytes, maxEntries, ops)
    requires CR.AbsoluteStatuses(ops) && C.WellFormed(c)
    ensures C.Fold(C.Fold(c, CR.Evs(sub.replay)), EventsOf(Logged(sub.pushed)))
         == C.Fold(c, CR.EventsAfter(CR.Run(maxBytes, maxEntries, ops).published, sub.cursor))
  {
    hide CR.Run, After, Logged, C.Fold;
    var before := ops[..at];
    var l0, l := CR.Run(maxBytes, maxEntries, before), CR.Run(maxBytes, maxEntries, ops);
    CR.RunValid(maxBytes, maxEntries, before);
    PublishedGrows(maxBytes, maxEntries, ops, at);
    if sub.resumed {
      CR.CompactedReplayIsExact(maxBytes, maxEntries, before, sub.cursor, c);
    } else {
      CR.NothingAfterLast(l0.published, sub.cursor);
    }
    var rest := l.published[|l0.published|..];
    assert l.published == l0.published + rest;
    EventsAfterConcat(l0.published, rest, sub.cursor);
    AllAfter(rest, sub.cursor);
    C.FoldConcat(c, CR.EventsAfter(l0.published, sub.cursor), EventsOf(rest));
  }

  /** Every event an epoch's operations published, encodable or not. */
  function Sources(ops: seq<CR.Op>): seq<Event> {
    if ops == [] then []
    else
      var op := ops[|ops| - 1];
      Sources(ops[..|ops| - 1]) + if op.Publish? then [op.ev] else []
  }

  lemma {:induction false} SourcesConcat(a: seq<CR.Op>, b: seq<CR.Op>)
    ensures Sources(a + b) == Sources(a) + Sources(b)
  {
    if b == [] {
      assert a + b == a;
    } else {
      assert (a + b)[..|a + b| - 1] == a + b[..|b| - 1];
      SourcesConcat(a, b[..|b| - 1]);
    }
  }

  lemma PublishSources(ops: seq<CR.Op>, ev: Event, size: nat, encodable: bool, trims: seq<CR.Op>)
    requires trims == [] || exists b: nat, n: nat :: trims == [CR.Trim(b, n)]
    ensures Sources(ops + [CR.Publish(ev, size, encodable)] + trims) == Sources(ops) + [ev]
  {
    var op := CR.Publish(ev, size, encodable);
    assert [op][..0] == [] && Sources([op]) == [ev];
    SourcesConcat(ops, [op]);
    SourcesConcat(ops + [op], trims);
    if trims != [] {
      assert trims[..0] == [] && Sources(trims) == [];
    }
  }

  /** What the status machine publishes meets what an exact replay needs: every status is absolute. */
  lemma {:induction false} SessionStatusesAbsolute(ops: seq<CR.Op>)
    requires SR.AbsoluteEvents(Sources(ops))
    ensures CR.AbsoluteStatuses(ops)
  {
    if ops != [] {
      var most, op := ops[..|ops| - 1], ops[|ops| - 1];
      assert forall e :: e in Sources(most) ==> e in Sources(ops);
      SessionStatusesAbsolute(most);
      assert op.Publish? ==> op.ev in Sources(ops);
    }
  }

  /** When every event can be encoded, the log publishes them all. */
  lemma {:induction false} EncodedAll(maxBytes: nat, maxEntries: nat, ops: seq<CR.Op>)
    requires forall op :: op in ops && op.Publish? ==> op.encodable
    ensures EventsOf(CR.Run(maxBytes, maxEntries, ops).published) == Sources(ops)
  {
    if ops != [] {
      var most, op := ops[..|ops| - 1], ops[|ops| - 1];
      EncodedAll(maxBytes, maxEntries, most);
      var l := CR.Run(maxBytes, maxEntries, most);
      if op.Publish? {
        EventsOfAppend(l.published, CR.Published(l.last + 1, op.ev));
      }
    }
  }

  lemma {:induction false} EventsOfAppend(ps: seq<CR.Published>, p: CR.Published)
    ensures EventsOf(ps + [p]) == EventsOf(ps) + [p.ev]
  {
    if ps == [] {
      assert ps + [p] == [p] && [p][1..] == [];
    } else {
      assert (ps + [p])[1..] == ps[1..] + [p];
      EventsOfAppend(ps[1..], p);
    }
  }

  /**
   A cold subscriber greeted when the session was `s` and holding every frame since shows what
   the session shows after `steps`, its overlay but for the judges its hello left out, and all
   the content of its ledger.
   */
  lemma SubscriberShows(sub: Subscription, at: nat, maxBytes: nat, maxEntries: nat, ops: seq<CR.Op>, s: State, steps: seq<Step>)
    requires Continuous(sub, at, maxBytes, maxEntries, ops) && !sub.resumed
    requires forall op :: op in ops && op.Publish? ==> op.encodable
    requires SR.Inv(s) && CC.Exact(s.live.led.content) && Contracted(s, steps) && CC.SameEpoch(s, steps)
    requires Sources(ops[..at]) == s.live.out && Sources(ops) == SessionModel.Run(s, steps).live.out
    requires sub.hello == SR.Hello(s.live)
    ensures CC.ShowsSession(C.Fold(sub.hello, EventsOf(Logged(sub.pushed))), SessionModel.Run(s, steps).live,
                            SR.Untold(s.live), CC.Dropped(s, steps))
  {
    hide CR.Run, C.Fold, Logged, SR.Hello, SR.Untold, EventsOf, Sources, SR.LiveInv, SR.ReadsInv, CC.ShowsSession, CC.Exact,
         CC.SameEpoch, CC.Dropped, Contracted, SessionModel.Run;
    var r0, r := CR.Run(maxBytes, maxEntries, ops[..at]), CR.Run(maxBytes, maxEntries, ops);
    EncodedAll(maxBytes, maxEntries, ops[..at]);
    EncodedAll(maxBytes, maxEntries, ops);
    PublishedGrows(maxBytes, maxEntries, ops, at);
    assert r.published == r0.published + Logged(sub.pushed);
    EventsOfConcat(r0.published, Logged(sub.pushed));
    CC.HelloShowsSession(s.live);
    CC.ClientFollows(s, steps, sub.hello, SR.Untold(s.live), {});
    var t := SessionModel.Run(s, steps);
    assert t.live.out == s.live.out + EventsOf(Logged(sub.pushed));
    assert CC.Since(s.live, t.live) == EventsOf(Logged(sub.pushed));
    assert {} + CC.Dropped(s, steps) == CC.Dropped(s, steps);
  }

  lemma {:induction false} EventsOfConcat(a: seq<CR.Published>, b: seq<CR.Published>)
    ensures EventsOf(a + b) == EventsOf(a) + EventsOf(b)
  {
    if a == [] {
      assert a + b == b;
    } else {
      assert (a + b)[1..] == a[1..] + b;
      EventsOfConcat(a[1..], b);
    }
  }

  function EventsOf(ps: seq<CR.Published>): seq<Event> {
    if ps == [] then [] else [ps[0].ev] + EventsOf(ps[1..])
  }

  lemma {:induction false} EventsAfterConcat(a: seq<CR.Published>, b: seq<CR.Published>, cursor: nat)
    ensures CR.EventsAfter(a + b, cursor) == CR.EventsAfter(a, cursor) + CR.EventsAfter(b, cursor)
  {
    if a == [] {
      assert a + b == b;
    } else {
      assert (a + b)[1..] == a[1..] + b;
      EventsAfterConcat(a[1..], b, cursor);
    }
  }

  lemma {:induction false} AllAfter(ps: seq<CR.Published>, cursor: nat)
    requires forall i :: 0 <= i < |ps| ==> ps[i].seqNo > cursor
    ensures CR.EventsAfter(ps, cursor) == EventsOf(ps)
  {
    if ps != [] {
      AllAfter(ps[1..], cursor);
    }
  }

  /** What is published later has a larger number than anything before it. */
  lemma {:induction false} PublishedGrows(maxBytes: nat, maxEntries: nat, ops: seq<CR.Op>, n: nat)
    requires n <= |ops|
    ensures var l0, l := CR.Run(maxBytes, maxEntries, ops[..n]), CR.Run(maxBytes, maxEntries, ops);
            && |l0.published| <= |l.published| && l.published[..|l0.published|] == l0.published
            && l0.last <= l.last
            && forall i :: |l0.published| <= i < |l.published| ==> l0.last < l.published[i].seqNo
  {
    if n == |ops| {
      assert ops[..n] == ops;
    } else {
      var most := ops[..|ops| - 1];
      assert most[..n] == ops[..n];
      PublishedGrows(maxBytes, maxEntries, most, n);
    }
  }

  /** Frames sent to one subscriber are in increasing order of their numbers. */
  lemma FramesInOrder(sub: Subscription, at: nat, maxBytes: nat, maxEntries: nat, ops: seq<CR.Op>, i: nat, j: nat)
    requires Continuous(sub, at, maxBytes, maxEntries, ops) && i < j < |Logged(sub.pushed)|
    ensures Logged(sub.pushed)[i].seqNo < Logged(sub.pushed)[j].seqNo
    ensures sub.cursor < Logged(sub.pushed)[i].seqNo
  {
    hide CR.Run, Logged, After;
    PublishedGrows(maxBytes, maxEntries, ops, at);
    CR.RunValid(maxBytes, maxEntries, ops[..at]);
    var ps := CR.Run(maxBytes, maxEntries, ops).published;
    var l0 := CR.Run(maxBytes, maxEntries, ops[..at]);
    var n := |l0.published|;
    assert Logged(sub.pushed)[i] == ps[n + i] && Logged(sub.pushed)[j] == ps[n + j];
    PublishedAscends(maxBytes, maxEntries, ops, n + i, n + j);
    assert sub.cursor <= l0.last;
  }

  lemma {:induction false} PublishedAscends(maxBytes: nat, maxEntries: nat, ops: seq<CR.Op>, i: nat, j: nat)
    requires i < j < |CR.Run(maxBytes, maxEntries, ops).published|
    ensures var ps := CR.Run(maxBytes, maxEntries, ops).published; ps[i].seqNo < ps[j].seqNo
  {
    if ops != [] {
      var most := ops[..|ops| - 1];
      var l := CR.Run(maxBytes, maxEntries, most);
      CR.RunValid(maxBytes, maxEntries, most);
      if j < |l.published| {
        PublishedAscends(maxBytes, maxEntries, most, i, j);
      }
    }
  }
}

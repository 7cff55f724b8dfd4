/**
 The change feed of one source: changes coalesce per session until a drain takes them,
 and a drain that fails gives back what it did not deliver.
 */
module Feed {
  import opened Arithmetic

  const MAX_SESSIONS: nat := 4096
  const MAX_IDS: nat := 16384

  datatype Change = Change(sessionId: string, seqNo: nat, messageIds: seq<string>, resync: bool, deleted: bool)

  /** What is read for `m` is at least what `c` asks for. */
  ghost predicate Covers(m: Change, c: Change) {
    && m.sessionId == c.sessionId && m.seqNo >= c.seqNo
    && (c.resync ==> m.resync) && (c.deleted ==> m.deleted)
    && forall id :: id in c.messageIds ==> id in m.messageIds
  }

  /** The ids of `more` not yet listed, in order. */
  function Fresh(have: seq<string>, more: seq<string>): seq<string> {
    if more == [] then have
    else
      var most := Fresh(have, more[..|more| - 1]);
      if more[|more| - 1] in most then most else most + [more[|more| - 1]]
  }

  function Merge(m: Change, c: Change): Change {
    m.(seqNo := Max(m.seqNo, c.seqNo), resync := m.resync || c.resync, deleted := m.deleted || c.deleted,
       messageIds := Fresh(m.messageIds, c.messageIds))
  }

  lemma {:induction false} FreshHolds(have: seq<string>, more: seq<string>)
    ensures forall id :: id in Fresh(have, more) <==> id in have || id in more
    ensures Unique(have) ==> Unique(Fresh(have, more))
    ensures |have| <= |Fresh(have, more)| && have <= Fresh(have, more)
  {
    if more != [] {
      FreshHolds(have, more[..|more| - 1]);
      assert more == more[..|more| - 1] + [more[|more| - 1]];
    }
  }

  ghost predicate Unique(ids: seq<string>) { forall i, j :: 0 <= i < j < |ids| ==> ids[i] != ids[j] }

  /** A merge covers both what it merged and everything covered before. */
  lemma MergeCovers(m: Change, c: Change, d: Change)
    requires m.sessionId == c.sessionId
    ensures Covers(Merge(m, c), c)
    ensures Covers(m, d) ==> Covers(Merge(m, c), d)
  {
    FreshHolds(m.messageIds, c.messageIds);
  }

  // ---- what is asked ----

  /** Nothing is read for `m` that none of the changes of its session asked for. */
  ghost predicate Asked(m: Change, cs: set<Change>) {
    && (exists c :: c in cs && c.sessionId == m.sessionId && c.seqNo == m.seqNo)
    && (m.resync ==> exists c :: c in cs && c.sessionId == m.sessionId && c.resync)
    && (m.deleted ==> exists c :: c in cs && c.sessionId == m.sessionId && c.deleted)
    && forall id :: id in m.messageIds ==> exists c :: c in cs && c.sessionId == m.sessionId && id in c.messageIds
  }

  ghost predicate AllAsked(entries: map<string, Change>, cs: set<Change>) {
    forall s :: s in entries ==> entries[s].sessionId == s && Asked(entries[s], cs)
  }

  /** A merge asks only for what its two changes ask for. */
  lemma MergeAsks(m: Change, c: Change)
    requires m.sessionId == c.sessionId
    ensures Asked(Merge(m, c), {m, c}) && m.messageIds <= Merge(m, c).messageIds
  {
    FreshHolds(m.messageIds, c.messageIds);
    var r := Merge(m, c);
    assert r.seqNo == m.seqNo || r.seqNo == c.seqNo;
    forall id | id in r.messageIds
      ensures exists d :: d in {m, c} && d.sessionId == r.sessionId && id in d.messageIds
    {
      var d := if id in m.messageIds then m else c;
      assert d in {m, c} && d.sessionId == r.sessionId && id in d.messageIds;
    }
    assert m in {m, c} && c in {m, c};
  }

  /** What changes ask for that were themselves asked for is asked for. */
  lemma AskedThrough(m: Change, cs: set<Change>, ds: set<Change>)
    requires Asked(m, cs) && forall c :: c in cs && c.sessionId == m.sessionId ==> c in ds || Asked(c, ds)
    ensures Asked(m, ds)
  {
    forall c | c in cs && c.sessionId == m.sessionId
      ensures exists d :: d in ds && d.sessionId == m.sessionId && d.seqNo == c.seqNo
      ensures c.resync ==> exists d :: d in ds && d.sessionId == m.sessionId && d.resync
      ensures c.deleted ==> exists d :: d in ds && d.sessionId == m.sessionId && d.deleted
      ensures forall id :: id in c.messageIds ==> exists d :: d in ds && d.sessionId == m.sessionId && id in d.messageIds
    {
      if c in ds {
        assert c.sessionId == m.sessionId && c.seqNo == c.seqNo;
      } else {
        assert Asked(c, ds);
      }
    }
  }

  lemma AllThrough(entries: map<string, Change>, cs: set<Change>, ds: set<Change>)
    requires AllAsked(entries, cs) && forall c :: c in cs ==> c in ds || Asked(c, ds)
    ensures AllAsked(entries, ds)
  {
    hide Asked;
    forall s | s in entries
      ensures Asked(entries[s], ds)
    {
      AskedThrough(entries[s], cs, ds);
    }
  }

  /** With one more change merged in, the entries ask for what the changes and it ask for. */
  lemma MergedAsked(entries: map<string, Change>, cs: set<Change>, c: Change)
    requires AllAsked(entries, cs)
    ensures AllAsked(Merged(entries, c), cs + {c})
  {
    var m := EntryOf(entries, c.sessionId);
    forall s | s in Merged(entries, c)
      ensures Merged(entries, c)[s].sessionId == s && Asked(Merged(entries, c)[s], cs + {c})
    {
      if s == c.sessionId {
        MergeAsks(m, c);
        if s in entries {
          AskedThrough(m, cs, cs + {c});
          AskedThrough(Merge(m, c), {m, c}, cs + {c});
        } else {
          FirstAsked(c);
          AskedThrough(Merge(m, c), {c}, cs + {c});
        }
      } else {
        AskedThrough(entries[s], cs, cs + {c});
      }
    }
  }

  lemma FirstAsked(c: Change)
    ensures Asked(Merge(Change(c.sessionId, 0, [], false, false), c), {c})
  {
    FreshHolds([], c.messageIds);
    assert c in {c};
  }

  lemma NoneAsked(cs: set<Change>)
    ensures AllAsked(map[], cs)
  {
  }

  // ---- what is owed ----

  /** A change is owed until it is delivered: it is covered by its session's entry, or a catch-up will find it. */
  ghost predicate Owed(c: Change, entries: map<string, Change>, catchUp: bool) {
    catchUp || (c.sessionId in entries && Covers(entries[c.sessionId], c))
  }

  ghost predicate AllOwed(cs: set<Change>, entries: map<string, Change>, catchUp: bool) {
    forall c :: c in cs ==> Owed(c, entries, catchUp)
  }

  ghost function IdCount(entries: map<string, Change>, ss: set<string>): nat
    requires ss <= entries.Keys
  {
    if ss == {} then 0 else var s :| s in ss; |entries[s].messageIds| + IdCount(entries, ss - {s})
  }

  lemma {:induction false} IdCountRemove(entries: map<string, Change>, ss: set<string>, x: string)
    requires ss <= entries.Keys && x in ss
    ensures IdCount(entries, ss) == |entries[x].messageIds| + IdCount(entries, ss - {x})
    decreases ss
  {
    var s :| s in ss && IdCount(entries, ss) == |entries[s].messageIds| + IdCount(entries, ss - {s});
    if s != x {
      IdCountRemove(entries, ss - {s}, x);
      IdCountRemove(entries, ss - {x}, s);
      assert ss - {s} - {x} == ss - {x} - {s};
    }
  }

  lemma {:induction false} IdCountSame(a: map<string, Change>, b: map<string, Change>, ss: set<string>)
    requires ss <= a.Keys && ss <= b.Keys && forall s :: s in ss ==> a[s].messageIds == b[s].messageIds
    ensures IdCount(a, ss) == IdCount(b, ss)
    decreases ss
  {
    if ss != {} {
      var s :| s in ss;
      IdCountRemove(a, ss, s);
      IdCountRemove(b, ss, s);
      IdCountSame(a, b, ss - {s});
    }
  }

  /** Replacing one session's entry changes the count by its own ids. */
  lemma IdCountPut(entries: map<string, Change>, s: string, m: Change)
    ensures IdCount(entries[s := m], entries[s := m].Keys)
         == IdCount(entries, entries.Keys) + |m.messageIds| - if s in entries then |entries[s].messageIds| else 0
  {
    var after := entries[s := m];
    assert after.Keys == entries.Keys + {s};
    IdCountRemove(after, after.Keys, s);
    assert after.Keys - {s} == entries.Keys - {s};
    IdCountSame(after, entries, entries.Keys - {s});
    if s in entries {
      IdCountRemove(entries, entries.Keys, s);
    } else {
      assert entries.Keys - {s} == entries.Keys;
    }
  }

  lemma TallyPut(entries: map<string, Change>, messageIds: map<string, set<string>>, ids: nat, s: string, m: Change, all: set<string>)
    requires Tallied(entries, messageIds, ids) && Keyed(entries)
    requires m.sessionId == s && Unique(m.messageIds) && all == Ids(m.messageIds)
    ensures Keyed(entries[s := m])
    ensures Tallied(entries[s := m], messageIds[s := all], IdCount(entries[s := m], entries[s := m].Keys))
  {
    hide Unique, Ids;
  }

  ghost predicate Keyed(entries: map<string, Change>) { forall s :: s in entries ==> entries[s].sessionId == s }

  /** The id sets and the total count what the entries list. */
  ghost predicate Tallied(entries: map<string, Change>, messageIds: map<string, set<string>>, ids: nat) {
    && ids == IdCount(entries, entries.Keys)
    && messageIds.Keys == entries.Keys
    && forall s :: s in entries ==> Unique(entries[s].messageIds) && messageIds[s] == Ids(entries[s].messageIds)
  }

  // ---- the feed ----

  class FeedState {
    var pending: map<string, Change>
    var catchUp: bool
    var connected: bool
    var messageIds: map<string, set<string>>
    var ids: nat
    var overflow: bool
    // the drain under way
    var held: map<string, Change>
    var heldCatchUp: bool
    var draining: bool
    ghost var queued: set<Change>   // enqueued since the drain began and not delivered
    ghost var handed: set<Change>   // taken by the drain and not delivered

    /** Nothing undelivered is forgotten, nothing is kept that no change asked for, and what is kept is bounded. */
    ghost predicate Valid()
      reads this
    {
      && AllOwed(queued, pending, catchUp)
      && AllOwed(handed, held, heldCatchUp)
      && AllAsked(pending, queued) && AllAsked(held, handed)
      && (overflow ==> catchUp)
      && (!draining ==> handed == {})
      && Keyed(pending) && Keyed(held)
      && Tallied(pending, messageIds, ids)
      && |pending| <= MAX_SESSIONS && ids <= MAX_IDS
    }

    /** A new feed has everything to catch up on. */
    constructor ()
      ensures Valid() && catchUp && queued == {} && handed == {} && !draining
    {
      pending, catchUp, connected, messageIds, ids, overflow := map[], true, false, map[], 0, false;
      held, heldCatchUp, draining := map[], false, false;
      queued, handed := {}, {};
    }

    /** Merges a change into its session's entry; too many changes become a catch-up. */
    method Enqueue(c: Change)
      requires Valid()
      modifies `pending, `messageIds, `ids, `overflow, `catchUp, `queued
      ensures Valid() && queued == old(queued) + {c}
      ensures old(overflow) ==> overflow && catchUp && pending == old(pending)
      ensures !old(overflow) ==>
                var m := Merged(old(pending), c);
                if |m| <= 4096 && IdCount(m, m.Keys) <= 16384
                then pending == m && !overflow && catchUp == old(catchUp)
                else pending == map[] && overflow && catchUp
    {
      hide Merge, AllOwed, AllAsked, Keyed, Tallied, Merged, IdCount;
      MergedAsked(pending, queued, c);
      AllThrough(pending, queued, queued + {c});
      queued := queued + {c};
      if overflow {
        CaughtUp(queued, pending);
        return;
      }
      ghost var was := pending;
      MergeIn(c);
      if |pending| > MAX_SESSIONS || ids > MAX_IDS {
        GiveUp();
      } else {
        MergedOwed(old(queued), was, c, catchUp);
      }
    }

    /** Too many changes are forgotten for a catch-up. */
    method GiveUp()
      requires AllOwed(handed, held, heldCatchUp) && AllAsked(held, handed) && (!draining ==> handed == {}) && Keyed(held)
      modifies `pending, `messageIds, `ids, `overflow, `catchUp
      ensures Valid() && pending == map[] && overflow && catchUp
    {
      hide AllOwed, AllAsked, Keyed, Tallied;
      pending, messageIds, ids := map[], map[], 0;
      overflow, catchUp := true, true;
      NoIds();
      NoneAsked(queued);
      CaughtUp(queued, pending);
    }

    /** A (re)connection compares everything. */
    method Connected()
      requires Valid()
      modifies `connected, `catchUp
      ensures Valid() && connected && catchUp && queued == old(queued)
    {
      hide AllOwed, AllAsked, Keyed, Tallied;
      connected, catchUp := true, true;
      CaughtUp(queued, pending);
    }

    method Disconnected()
      requires Valid()
      modifies `connected
      ensures Valid() && !connected
    {
      hide AllOwed, AllAsked, Keyed, Tallied;
      connected := false;
    }

    /** While the feed is down the comparison repeats. */
    method Tick()
      requires Valid()
      modifies `catchUp
      ensures Valid() && catchUp == (old(catchUp) || !connected) && queued == old(queued)
    {
      hide AllOwed, AllAsked, Keyed, Tallied;
      catchUp := catchUp || !connected;
      if catchUp {
        CaughtUp(queued, pending);
      }
    }

    /** A drain takes everything pending; changes from now on wait for the next. */
    method BeginDrain()
      requires Valid() && !draining
      modifies this
      ensures Valid() && draining && queued == {} && handed == old(queued)
      ensures pending == map[] && !catchUp && held == old(pending) && heldCatchUp == old(catchUp)
    {
      hide AllOwed, AllAsked, Keyed, Tallied;
      NoIds();
      NoneOwed();
      NoneAsked({});
      held, heldCatchUp, draining := pending, catchUp, true;
      handed, queued := queued, {};
      pending, messageIds, ids, overflow, catchUp := map[], map[], 0, false, false;
    }

    /** A session's changes were applied, or the source no longer lists it. */
    method Delivered(s: string)
      requires Valid() && draining
      modifies `held, `handed
      ensures Valid() && held == old(held) - {s} && handed == set c | c in old(handed) && c.sessionId != s
    {
      hide Covers, Asked, Tallied;
      DeliveredAsked(held, handed, s);
      held := held - {s};
      handed := set c | c in handed && c.sessionId != s;
    }

    /**
     A drain that succeeded delivered all it took: the changes one by one, or everything by
     catching up.
     */
    method DrainDone()
      requires Valid() && draining && held == map[]
      modifies `heldCatchUp, `draining, `handed
      ensures Valid() && !draining && handed == {}
      ensures !old(heldCatchUp) ==> old(handed) == {}
    {
      hide Covers, Asked, Tallied;
      NoIds();
      assert !heldCatchUp ==> forall c :: c in handed ==> Owed(c, held, heldCatchUp);
      heldCatchUp, draining, handed := false, false, {};
    }

    /** A drain that failed gives its changes back, and catches up next time. */
    method DrainFailed()
      requires Valid() && draining
      modifies this
      ensures Valid() && !draining && handed == {} && catchUp && queued == old(queued) + old(handed)
      ensures !overflow ==> CoversAll(pending, old(pending), old(pending).Keys) && CoversAll(pending, old(held), old(held).Keys)
    {
      hide AllOwed, AllAsked, Asked, Keyed, Tallied, CoversAll, Merged, IdCount;
      NoIds();
      HeldAsked(held, handed);
      ghost var undelivered := queued + handed;
      var rest := held.Keys;
      CoversSame(pending, held);
      while rest != {}
        invariant Valid() && rest <= held.Keys && undelivered <= queued + handed
        invariant held == old(held) && handed == old(handed) && draining
        invariant forall c :: c in queued ==> c in undelivered || Asked(c, handed)
        invariant !overflow ==> CoversAll(pending, old(pending), old(pending).Keys) && CoversAll(pending, held, held.Keys - rest)
      {
        var s :| s in rest;
        ghost var was, given := pending, overflow;
        Enqueue(held[s]);
        if !overflow && !given {
          CoversMore(was, old(pending), old(pending).Keys, held[s]);
          CoversNext(was, held, held.Keys - rest, s);
          assert held.Keys - (rest - {s}) == held.Keys - rest + {s};
        }
        rest := rest - {s};
      }
      assert held.Keys - rest == held.Keys;
      catchUp := true;
      AskedMore(queued, handed, undelivered);
      AllThrough(pending, queued, undelivered);
      queued := undelivered;
      NoneAsked({});
      held, heldCatchUp, draining, handed := map[], false, false, {};
      CaughtUp(queued, pending);
      NoneOwed();
    }

    /** Adds a change to its session's entry, with its ids until there are too many. */
    method MergeIn(c: Change)
      requires Tallied(pending, messageIds, ids) && ids <= MAX_IDS && Keyed(pending)
      modifies `pending, `messageIds, `ids
      ensures Tallied(pending, messageIds, ids) && Keyed(pending)
      ensures pending.Keys == Merged(old(pending), c).Keys
      ensures ids <= MAX_IDS ==> pending == Merged(old(pending), c)
      ensures ids <= MAX_IDS <==> IdCount(Merged(old(pending), c), Merged(old(pending), c).Keys) <= MAX_IDS
    {
      hide Unique, IdCount, Ids, Fresh;
      var s := c.sessionId;
      var m := if s in pending then pending[s] else Change(s, 0, [], false, false);
      if s !in messageIds {
        NoIds();
      }
      var seen := if s in messageIds then messageIds[s] else {};
      var list, all, count := Collect(m.messageIds, seen, ids, c.messageIds);
      var merged := Change(s, Max(m.seqNo, c.seqNo), list, m.resync || c.resync, m.deleted || c.deleted);
      TallyPut(pending, messageIds, ids, s, merged, all);
      IdCountPut(pending, s, merged);
      hide Tallied, Keyed;
      IdCountPut(pending, s, Merge(m, c));
      pending := pending[s := merged];
      messageIds := messageIds[s := all];
      ids := count;
    }
  }

  /** The entries of some sessions are covered. */
  ghost predicate CoversAll(entries: map<string, Change>, others: map<string, Change>, ss: set<string>) {
    forall s :: s in ss ==> s in others && s in entries && Covers(entries[s], others[s])
  }

  lemma CoversSame(entries: map<string, Change>, others: map<string, Change>)
    ensures CoversAll(entries, entries, entries.Keys) && CoversAll(entries, others, others.Keys - others.Keys)
  {
  }

  lemma CoversMore(entries: map<string, Change>, others: map<string, Change>, ss: set<string>, c: Change)
    requires Keyed(entries) && CoversAll(entries, others, ss)
    ensures CoversAll(Merged(entries, c), others, ss)
  {
    hide Merge, Covers;
    forall s | s in ss
      ensures Covers(Merged(entries, c)[s], others[s])
    {
      if s == c.sessionId {
        MergeCovers(entries[s], c, others[s]);
      }
    }
  }

  lemma CoversNext(entries: map<string, Change>, others: map<string, Change>, ss: set<string>, s: string)
    requires Keyed(entries) && Keyed(others) && s in others && CoversAll(entries, others, ss)
    ensures CoversAll(Merged(entries, others[s]), others, ss + {s})
  {
    hide Merge, Covers;
    CoversMore(entries, others, ss, others[s]);
    MergeCovers(EntryOf(entries, s), others[s], others[s]);
  }

  lemma DeliveredAsked(entries: map<string, Change>, cs: set<Change>, s: string)
    requires AllAsked(entries, cs)
    ensures AllAsked(entries - {s}, set c | c in cs && c.sessionId != s)
  {
    hide Asked;
    var left := set c | c in cs && c.sessionId != s;
    forall r | r in entries - {s}
      ensures Asked(entries[r], left)
    {
      AskedThrough(entries[r], cs, left);
    }
  }

  lemma HeldAsked(entries: map<string, Change>, cs: set<Change>)
    requires AllAsked(entries, cs)
    ensures forall s :: s in entries ==> Asked(entries[s], cs)
  {
  }

  lemma AskedMore(all: set<Change>, cs: set<Change>, ds: set<Change>)
    requires cs <= ds && forall c :: c in all ==> c in ds || Asked(c, cs)
    ensures forall c :: c in all ==> c in ds || Asked(c, ds)
  {
    forall c | c in all && c !in ds
      ensures Asked(c, ds)
    {
      AskedThrough(c, cs, ds);
    }
  }

  lemma NoneOwed()
    ensures AllOwed({}, map[], false)
  {
  }

  lemma CaughtUp(cs: set<Change>, entries: map<string, Change>)
    ensures AllOwed(cs, entries, true)
  {
  }

  function EntryOf(entries: map<string, Change>, s: string): Change {
    if s in entries then entries[s] else Change(s, 0, [], false, false)
  }

  /** The entries with one more change merged in. */
  function Merged(entries: map<string, Change>, c: Change): map<string, Change> {
    entries[c.sessionId := Merge(EntryOf(entries, c.sessionId), c)]
  }

  lemma {:induction false} FreshPrefix(have: seq<string>, more: seq<string>, i: nat)
    requires i <= |more|
    ensures |Fresh(have, more[..i])| <= |Fresh(have, more)|
    decreases |more|
  {
    if i < |more| {
      var most := more[..|more| - 1];
      assert most[..i] == more[..i];
      FreshPrefix(have, most, i);
    } else {
      assert more[..i] == more;
    }
  }

  ghost function Ids(ids: seq<string>): set<string> { set id | id in ids }

  lemma NoIds()
    ensures Unique([]) && Ids([]) == {} && Tallied(map[], map[], 0) && Keyed(map[])
  {
  }

  /** Lists the ids not seen yet, until the count passes its bound. */
  method Collect(have: seq<string>, seen: set<string>, count: nat, more: seq<string>)
    returns (list: seq<string>, all: set<string>, total: nat)
    requires Unique(have) && seen == Ids(have) && count <= MAX_IDS
    ensures Unique(list) && all == Ids(list) && total == count + |list| - |have|
    ensures total <= MAX_IDS ==> list == Fresh(have, more)
    ensures |list| <= |Fresh(have, more)|
  {
    list, all, total := have, seen, count;
    for i := 0 to |more|
      invariant list == Fresh(have, more[..i]) && Unique(list) && all == Ids(list)
      invariant total == count + |list| - |have| && total <= MAX_IDS
    {
      assert more[..i + 1][..i] == more[..i];
      if more[i] !in all {
        all := all + {more[i]};
        list := list + [more[i]];
        total := total + 1;
      }
      if total > MAX_IDS {
        FreshPrefix(have, more, i + 1);
        return;
      }
    }
    assert more[..|more|] == more;
  }

  /** Merging a change keeps everything owed, and owes the change too. */
  lemma MergedOwed(cs: set<Change>, entries: map<string, Change>, c: Change, catchUp: bool)
    requires AllOwed(cs, entries, catchUp) && Keyed(entries)
    ensures AllOwed(cs + {c}, Merged(entries, c), catchUp)
  {
    var m := EntryOf(entries, c.sessionId);
    forall d | d in cs + {c}
      ensures Owed(d, Merged(entries, c), catchUp)
    {
      MergeCovers(m, c, d);
    }
  }
}

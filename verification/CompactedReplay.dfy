/**
 Replaying the compacted log gives the state the whole run gives: for every run of
 publishes and trims, every resumable cursor and every client.
 */
module CompactedReplay {
  import opened Events
  import opened Utf16
  import opened StreamContent
  import opened ReplayLog
  import C = Client

  // ---- an event only touches its own slice of the client ----

  /** The client without the slice a key names. */
  function Forget(c: C.Client, k: Key): C.Client {
    match k
    case PartKey(p) => c.(content := c.content.(parts := c.content.parts - {p}))
    case PromptKey(id) => c.(prompts := c.prompts - {id}, judge := c.judge - {id}, resolved := c.resolved - {id})
    case StatusKey => c.(status := Status(Done, false, Cleared, 0))
    case BackgroundKey => c.(background := Background(0, []))
    case QueueKey => c.(queue := None)
    case _ => c
  }

  /** An event registered under a key changes only that slice. */
  lemma KeyedStep(c: C.Client, e: Event)
    requires KeyOf(e) != NoKey
    ensures Forget(C.Step(c, e), KeyOf(e)) == Forget(c, KeyOf(e))
  {
    assert C.Step(c, e).content.msgs == c.content.msgs;
    match e
    case PartDelta(p, f, offset, text) =>
      assert C.Step(c, e).content.parts - {p} == c.content.parts - {p};
    case PartUpserted(p, _) =>
      assert C.Step(c, e).content.parts - {p.id} == c.content.parts - {p.id};
    case PromptAsked(p) =>
      assert C.Step(c, e).prompts - {p.id} == c.prompts - {p.id};
    case PromptJudge(j) =>
      assert C.Step(c, e).judge - {j.promptId} == c.judge - {j.promptId};
    case _ =>
  }

  lemma AgreeElsewhere<V>(m: map<string, V>, n: map<string, V>, id: string)
    requires m - {id} == n - {id}
    ensures forall q :: q != id ==> Lookup(m, q) == Lookup(n, q)
  {
    forall q | q != id
      ensures Lookup(m, q) == Lookup(n, q)
    {
      assert Lookup(m - {id}, q) == Lookup(m, q) && Lookup(n - {id}, q) == Lookup(n, q);
    }
  }

  lemma SameElsewhere<V>(m: map<string, V>, n: map<string, V>, id: string)
    requires forall q :: q != id ==> Lookup(m, q) == Lookup(n, q)
    ensures m - {id} == n - {id}
  {
    forall q | q != id
      ensures Lookup(m - {id}, q) == Lookup(n - {id}, q)
    {
      assert Lookup(m, q) == Lookup(n, q);
    }
    assert forall q :: q in m - {id} ==> Lookup(m - {id}, q) == Lookup(n - {id}, q);
    assert forall q :: q in n - {id} ==> Lookup(m - {id}, q) == Lookup(n - {id}, q);
  }

  /** Outside a slice, what an event does does not depend on the slice. */
  lemma ContentIndependent(c: Content, d: Content, e: Event, p: string)
    requires c.msgs == d.msgs && c.parts - {p} == d.parts - {p}
    ensures Apply(c, e).msgs == Apply(d, e).msgs
    ensures Apply(c, e).parts - {p} == Apply(d, e).parts - {p}
  {
    AgreeElsewhere(c.parts, d.parts, p);
    var c', d' := Apply(c, e), Apply(d, e);
    forall q | q != p
      ensures Lookup(c'.parts, q) == Lookup(d'.parts, q)
    {
      assert Lookup(c.parts, q) == Lookup(d.parts, q);
    }
    SameElsewhere(c'.parts, d'.parts, p);
  }

  lemma StepIndependent(c: C.Client, d: C.Client, e: Event, k: Key)
    requires Forget(c, k) == Forget(d, k)
    ensures Forget(C.Step(c, e), k) == Forget(C.Step(d, e), k)
  {
    hide Forget, Apply, C.Step;
    match k
    case PartKey(p) =>
      PartIndependent(c, d, e, p);
    case PromptKey(id) =>
      PromptIndependent(c, d, e, id);
    case _ =>
      LevelIndependent(c, d, e, k);
  }

  lemma PartIndependent(c: C.Client, d: C.Client, e: Event, p: string)
    requires Forget(c, PartKey(p)) == Forget(d, PartKey(p))
    ensures Forget(C.Step(c, e), PartKey(p)) == Forget(C.Step(d, e), PartKey(p))
  {
    ContentIndependent(c.content, d.content, e, p);
    hide Apply;
  }

  lemma LevelIndependent(c: C.Client, d: C.Client, e: Event, k: Key)
    requires !k.PartKey? && !k.PromptKey? && Forget(c, k) == Forget(d, k)
    ensures Forget(C.Step(c, e), k) == Forget(C.Step(d, e), k)
  {
    hide Apply;
  }

  lemma PromptIndependent(c: C.Client, d: C.Client, e: Event, id: string)
    requires Forget(c, PromptKey(id)) == Forget(d, PromptKey(id))
    ensures Forget(C.Step(c, e), PromptKey(id)) == Forget(C.Step(d, e), PromptKey(id))
  {
    var c', d' := C.Step(c, e), C.Step(d, e);
    AgreeElsewhere(c.prompts, d.prompts, id);
    AgreeElsewhere(c.judge, d.judge, id);
    forall q | q != id
      ensures q in c'.resolved <==> q in d'.resolved
      ensures Lookup(c'.prompts, q) == Lookup(d'.prompts, q) && Lookup(c'.judge, q) == Lookup(d'.judge, q)
    {
      assert q in c.resolved <==> q in c.resolved - {id};
      assert q in d.resolved <==> q in d.resolved - {id};
      PromptStep(c, e, q);
      PromptStep(d, e, q);
    }
    SameElsewhere(c'.prompts, d'.prompts, id);
    SameElsewhere(c'.judge, d'.judge, id);
    assert c'.resolved - {id} == d'.resolved - {id};
  }

  /** What an event does to one prompt depends on that prompt's own state. */
  lemma PromptStep(c: C.Client, e: Event, q: string)
    ensures var c' := C.Step(c, e);
            var done := q in c.resolved;
            var resolve := e == PromptResolved(q);
            && (q in c'.resolved <==> done || resolve)
            && Lookup(c'.prompts, q) == (if done then Lookup(c.prompts, q) else if resolve then None
                                      else if e.PromptAsked? && e.prompt.id == q then Some(e.prompt) else Lookup(c.prompts, q))
            && Lookup(c'.judge, q) == (if done then Lookup(c.judge, q) else if resolve then None
                                    else if e.PromptJudge? && e.judge.promptId == q then Some(e.judge) else Lookup(c.judge, q))
  {
  }

  /** A superseding event replaces its whole slice: what came before in it no longer matters. */
  lemma Supersession(c: C.Client, d: C.Client, e: Event, k: Key)
    requires k in Supersedes(e) && Forget(c, k) == Forget(d, k)
    requires C.WellFormed(c) && C.WellFormed(d)
    requires e.StatusChanged? ==> C.Absolute(e.status)
    ensures C.Step(c, e) == C.Step(d, e)
  {
    match e
    case PartUpserted(p, final) =>
      PartSuperseded(c, d, p);
    case PromptResolved(id) =>
      PromptSuperseded(c, d, id);
    case _ =>
  }

  /** What an event makes of a client does not depend on the slice a key names. */
  ghost predicate Independent(e: Event, k: Key) {
    forall c: C.Client, d: C.Client :: C.WellFormed(c) && C.WellFormed(d) && Forget(c, k) == Forget(d, k) ==> C.Step(c, e) == C.Step(d, e)
  }

  /**
   A registered event supersedes the events of its key exactly when its own effect does not depend
   on theirs: whatever may be forgotten is, and nothing that may not.
   */
  lemma SupersedesExactly(e: Event)
    requires KeyOf(e) != NoKey && (e.StatusChanged? ==> C.Absolute(e.status))
    ensures Supersedes(e) == (if Independent(e, KeyOf(e)) then [KeyOf(e)] else [])
  {
    hide Forget;
    if Supersedes(e) != [] {
      assert Supersedes(e)[0] == KeyOf(e);
      forall c: C.Client, d: C.Client | C.WellFormed(c) && C.WellFormed(d) && Forget(c, KeyOf(e)) == Forget(d, KeyOf(e))
        ensures C.Step(c, e) == C.Step(d, e)
      {
        Supersession(c, d, e, KeyOf(e));
      }
    } else {
      var c, d := Depends(e);
      assert !(Forget(c, KeyOf(e)) == Forget(d, KeyOf(e)) ==> C.Step(c, e) == C.Step(d, e));
    }
  }

  const NO_CLIENT: C.Client := C.Client(Status(Done, false, Cleared, 0), map[], map[], {}, Background(0, []), None, EMPTY)

  /** Two clients that differ in the slice alone and that the event tells apart. */
  lemma Depends(e: Event) returns (c: C.Client, d: C.Client)
    requires KeyOf(e) != NoKey && Supersedes(e) == []
    ensures C.WellFormed(c) && C.WellFormed(d) && Forget(c, KeyOf(e)) == Forget(d, KeyOf(e)) && C.Step(c, e) != C.Step(d, e)
  {
    c, d := NO_CLIENT, NO_CLIENT;
    match e
    case PartDelta(p, _, _, _) =>
      d := d.(content := Content(map[], map[p := LivePart(Part(p, "", PartData("", "", NoOutput, "", 0)), map[], false)]));
      assert d.content.parts - {p} == c.content.parts - {p};
      assert p in C.Step(d, e).content.parts && p !in C.Step(c, e).content.parts;
    case PartUpserted(p, _) =>
      var longer := StreamField(p.data.text, Units(p.data.text) + 1);
      d := d.(content := Content(map[], map[p.id := LivePart(p, map[Text := longer], false)]));
      assert d.content.parts - {p.id} == c.content.parts - {p.id};
      assert C.Step(d, e).content.parts[p.id].fields[Text] == longer;
      assert C.Step(c, e).content.parts[p.id].fields[Text].units == Units(p.data.text);
    case PromptAsked(p) =>
      d := d.(resolved := {p.id});
      assert d.resolved - {p.id} == c.resolved - {p.id};
      assert p.id in C.Step(c, e).prompts && p.id !in C.Step(d, e).prompts;
    case PromptJudge(j) =>
      d := d.(resolved := {j.promptId});
      assert d.resolved - {j.promptId} == c.resolved - {j.promptId};
      assert j.promptId in C.Step(c, e).judge && j.promptId !in C.Step(d, e).judge;
    case _ =>
  }

  /** Which events can be superseded: those that only state live state; an answered prompt supersedes what was said of it. */
  lemma Registered(e: Event, id: string)
    ensures KeyOf(e) == PartKey(id) <==> (e.PartDelta? && e.partId == id) || (e.PartUpserted? && e.part.id == id)
    ensures KeyOf(e) == PromptKey(id) <==> (e.PromptAsked? && e.prompt.id == id) || (e.PromptJudge? && e.judge.promptId == id)
    ensures KeyOf(e) == StatusKey <==> e.StatusChanged?
    ensures KeyOf(e) == BackgroundKey <==> e.BackgroundChanged?
    ensures KeyOf(e) == QueueKey <==> e.QueueChanged?
    ensures KeyOf(e) == HistoryKey <==> e.HistoryCommitted?
    ensures KeyOf(e) == NoKey ==> Supersedes(e) == if e.PromptResolved? then [PromptKey(e.promptId)] else []
  {
  }

  lemma PartSuperseded(c: C.Client, d: C.Client, p: Part)
    requires Forget(c, PartKey(p.id)) == Forget(d, PartKey(p.id))
    ensures C.Step(c, PartUpserted(p, true)) == C.Step(d, PartUpserted(p, true))
  {
    assert UpsertPart(PartOf(c.content.parts, p.id), p, true) == UpsertPart(PartOf(d.content.parts, p.id), p, true);
    assert c.content.parts[p.id := UpsertPart(None, p, true)] == (c.content.parts - {p.id})[p.id := UpsertPart(None, p, true)];
    assert d.content.parts[p.id := UpsertPart(None, p, true)] == (d.content.parts - {p.id})[p.id := UpsertPart(None, p, true)];
  }

  lemma PromptSuperseded(c: C.Client, d: C.Client, id: string)
    requires Forget(c, PromptKey(id)) == Forget(d, PromptKey(id))
    requires C.WellFormed(c) && C.WellFormed(d)
    ensures C.Step(c, PromptResolved(id)) == C.Step(d, PromptResolved(id))
  {
    assert c.resolved + {id} == (c.resolved - {id}) + {id};
    assert d.resolved + {id} == (d.resolved - {id}) + {id};
    assert id in c.resolved ==> c.prompts == c.prompts - {id} && c.judge == c.judge - {id} && c.resolved == c.resolved + {id};
    assert id in d.resolved ==> d.prompts == d.prompts - {id} && d.judge == d.judge - {id} && d.resolved == d.resolved + {id};
  }

  // ---- erasing what a later event supersedes ----

  /** The events without those registered under the given keys. */
  function Erase(evs: seq<Event>, ks: seq<Key>): seq<Event> {
    if evs == [] then []
    else (if KeyOf(evs[0]) in ks then [] else [evs[0]]) + Erase(evs[1..], ks)
  }

  lemma {:induction false} EraseFold(c: C.Client, d: C.Client, evs: seq<Event>, k: Key)
    requires k != NoKey && Forget(c, k) == Forget(d, k)
    ensures Forget(C.Fold(c, evs), k) == Forget(C.Fold(d, Erase(evs, [k])), k)
    decreases |evs|
  {
    if evs != [] {
      var e := evs[0];
      if KeyOf(e) == k {
        KeyedStep(c, e);
        assert Erase(evs, [k]) == Erase(evs[1..], [k]);
        EraseFold(C.Step(c, e), d, evs[1..], k);
      } else {
        StepIndependent(c, d, e, k);
        assert Erase(evs, [k])[1..] == Erase(evs[1..], [k]);
        EraseFold(C.Step(c, e), C.Step(d, e), evs[1..], k);
      }
    }
  }

  /** Folding a run, or the run without what its last event supersedes, gives the same client. */
  lemma EraseSuperseded(c: C.Client, evs: seq<Event>, e: Event)
    requires C.WellFormed(c)
    requires e.StatusChanged? ==> C.Absolute(e.status)
    ensures C.Fold(c, Erase(evs, Supersedes(e)) + [e]) == C.Fold(c, evs + [e])
  {
    C.FoldLast(c, evs, e);
    C.FoldLast(c, Erase(evs, Supersedes(e)), e);
    var ks := Supersedes(e);
    if ks == [] {
      EraseNothing(evs);
    } else {
      assert ks == [ks[0]];
      EraseFold(c, c, evs, ks[0]);
      C.FoldWellFormed(c, evs);
      C.FoldWellFormed(c, Erase(evs, ks));
      Supersession(C.Fold(c, evs), C.Fold(c, Erase(evs, ks)), e, ks[0]);
    }
  }

  lemma {:induction false} EraseNothing(evs: seq<Event>)
    ensures Erase(evs, []) == evs
  {
    if evs != [] {
      EraseNothing(evs[1..]);
    }
  }

  // ---- runs of the log ----

  datatype Published = Published(seqNo: nat, ev: Event)

  /** One epoch's log, its bounds, and everything it published. */
  datatype Log = Log(last: nat, floor: nat, entries: seq<Entry>, maxBytes: nat, maxEntries: nat,
                     published: seq<Published>)

  /**
   A publish reserves a number and logs its frame unless the event cannot be encoded;
   the hub's budget trims a log at any time.
   */
  datatype Op = Publish(ev: Event, size: nat, encodable: bool) | Trim(bytes: nat, count: nat)

  function Start(maxBytes: nat, maxEntries: nat): Log { Log(0, 0, [], maxBytes, maxEntries, []) }

  function AfterTrim(l: Log, es: seq<Entry>, maxBytes: nat, maxEntries: nat): Log {
    var n := Trimmed(es, maxBytes, maxEntries);
    l.(entries := es[n..], floor := FloorAfter(es, n, l.floor))
  }

  function Do(l: Log, op: Op): Log {
    match op
    case Trim(bytes, count) => AfterTrim(l, l.entries, bytes, count)
    case Publish(ev, size, encodable) =>
      var s := l.last + 1;
      if !encodable then l.(last := s)
      else
        var es := DropKeys(l.entries, Supersedes(ev)) + [Entry(s, Frame(ev, size), KeyOf(ev), false)];
        var t := AfterTrim(l, es, l.maxBytes, l.maxEntries);
        t.(last := s, entries := Repacked(t.entries), published := l.published + [Published(s, ev)])
  }

  function Run(maxBytes: nat, maxEntries: nat, ops: seq<Op>): Log {
    if ops == [] then Start(maxBytes, maxEntries)
    else Do(Run(maxBytes, maxEntries, ops[..|ops| - 1]), ops[|ops| - 1])
  }

  /** The events published after a cursor, in order. */
  function EventsAfter(ps: seq<Published>, cursor: nat): seq<Event> {
    if ps == [] then []
    else (if ps[0].seqNo > cursor then [ps[0].ev] else []) + EventsAfter(ps[1..], cursor)
  }

  function Evs(es: seq<Entry>): seq<Event> {
    if es == [] then []
    else (if es[0].frame.Frame? then [es[0].frame.ev] else []) + Evs(es[1..])
  }

  function Replayed(l: Log, cursor: nat): seq<Event> { Evs(After(l.entries, cursor)) }

  ghost predicate LogValid(l: Log) {
    && ReplayLog.WellFormed(l.entries)
    && Within(l.entries, l.floor, l.last)
    && KeysMatch(l.entries)
    && (forall i :: 0 <= i < |l.published| ==> l.published[i].seqNo <= l.last)
  }

  lemma DropKeysValid(es: seq<Entry>, ks: seq<Key>, floor: nat, last: nat)
    requires ReplayLog.WellFormed(es) && Within(es, floor, last)
    ensures ReplayLog.WellFormed(DropKeys(es, ks)) && Within(DropKeys(es, ks), floor, last)
    ensures KeysMatch(es) ==> KeysMatch(DropKeys(es, ks))
  {
    forall e | KeysMatch(es) && e in DropKeys(es, ks) && !e.dropped
      ensures e.frame.Frame? && e.key == KeyOf(e.frame.ev)
    {
      assert e in es;
    }
  }

  lemma TrimValid(l: Log, es: seq<Entry>, maxBytes: nat, maxEntries: nat, last: nat)
    requires ReplayLog.WellFormed(es) && Within(es, l.floor, last)
    ensures var t := AfterTrim(l, es, maxBytes, maxEntries);
            && ReplayLog.WellFormed(t.entries) && Within(t.entries, t.floor, last) && l.floor <= t.floor
            && forall e :: e in t.entries ==> e in es
  {
    SuffixValid(es, Trimmed(es, maxBytes, maxEntries), l.floor, last);
  }

  lemma RepackValid(es: seq<Entry>, floor: nat, last: nat)
    requires ReplayLog.WellFormed(es) && Within(es, floor, last)
    ensures ReplayLog.WellFormed(Repacked(es)) && Within(Repacked(es), floor, last)
    ensures forall e :: e in Repacked(es) ==> e in es
  {
    LiveOnlyWellFormed(es);
    LiveOnlyMembers(es);
  }

  lemma DoValid(l: Log, op: Op)
    requires LogValid(l)
    ensures LogValid(Do(l, op)) && l.floor <= Do(l, op).floor && l.last <= Do(l, op).last
  {
    match op
    case Trim(bytes, count) =>
      TrimValid(l, l.entries, bytes, count, l.last);
    case Publish(ev, size, encodable) =>
      if encodable {
        PublishValid(l, ev, size);
      }
  }

  ghost predicate KeysMatch(es: seq<Entry>) {
    forall e :: e in es && !e.dropped ==> e.frame.Frame? && e.key == KeyOf(e.frame.ev)
  }

  lemma PublishValid(l: Log, ev: Event, size: nat)
    requires LogValid(l)
    ensures LogValid(Do(l, Publish(ev, size, true))) && l.floor <= Do(l, Publish(ev, size, true)).floor
  {
    var s := l.last + 1;
    var kept := DropKeys(l.entries, Supersedes(ev));
    DropKeysValid(l.entries, Supersedes(ev), l.floor, l.last);
    var e := Entry(s, Frame(ev, size), KeyOf(ev), false);
    PushedValid(kept, e, l.floor);
    var t := AfterTrim(l, kept + [e], l.maxBytes, l.maxEntries);
    TrimValid(l, kept + [e], l.maxBytes, l.maxEntries, s);
    RepackValid(t.entries, t.floor, s);
  }

  lemma PushedValid(es: seq<Entry>, e: Entry, floor: nat)
    requires e.seqNo > 0 && ReplayLog.WellFormed(es) && Within(es, floor, e.seqNo - 1) && KeysMatch(es)
    requires !e.dropped && e.frame.Frame? && e.key == KeyOf(e.frame.ev)
    ensures ReplayLog.WellFormed(es + [e]) && Within(es + [e], floor, e.seqNo) && KeysMatch(es + [e])
  {
  }

  /** In every run, the log stays well formed and every retained number is above the floor. */
  lemma {:induction false} RunValid(maxBytes: nat, maxEntries: nat, ops: seq<Op>)
    ensures LogValid(Run(maxBytes, maxEntries, ops))
    ensures Run(maxBytes, maxEntries, ops).maxBytes == maxBytes && Run(maxBytes, maxEntries, ops).maxEntries == maxEntries
  {
    if ops != [] {
      RunValid(maxBytes, maxEntries, ops[..|ops| - 1]);
      DoValid(Run(maxBytes, maxEntries, ops[..|ops| - 1]), ops[|ops| - 1]);
    }
  }

  // ---- what the maintenance of the log does to a replay ----

  /** Evicting a prefix changes no replay from the new floor on. */
  lemma {:induction false} EvictedBelowFloor(es: seq<Entry>, n: nat, floor: nat, i: nat)
    requires ReplayLog.Ascending(es) && i < n <= |es|
    ensures es[i].dropped || es[i].seqNo <= FloorAfter(es, n, floor)
  {
    if n > 0 && es[n - 1].dropped && i < n - 1 {
      EvictedBelowFloor(es, n - 1, floor, i);
    }
  }

  lemma TrimKeepsReplay(l: Log, es: seq<Entry>, maxBytes: nat, maxEntries: nat, cursor: nat)
    requires ReplayLog.WellFormed(es)
    requires AfterTrim(l, es, maxBytes, maxEntries).floor <= cursor
    ensures After(AfterTrim(l, es, maxBytes, maxEntries).entries, cursor) == After(es, cursor)
  {
    var n := Trimmed(es, maxBytes, maxEntries);
    assert es == es[..n] + es[n..];
    AfterConcat(es[..n], es[n..], cursor);
    forall i | 0 <= i < n
      ensures es[i].dropped || es[i].seqNo <= cursor
    {
      EvictedBelowFloor(es, n, l.floor, i);
    }
    AfterNone(es[..n], cursor);
  }

  lemma {:induction false} RepackKeepsReplay(es: seq<Entry>, cursor: nat)
    ensures After(LiveOnly(es), cursor) == After(es, cursor)
  {
    if es != [] {
      RepackKeepsReplay(es[1..], cursor);
      if es[0].dropped {
        assert LiveOnly(es) == LiveOnly(es[1..]);
      } else {
        assert LiveOnly(es)[1..] == LiveOnly(es[1..]);
      }
    }
  }

  /** Dropping by key erases exactly the replayed events registered under it. */
  lemma {:induction false} DropErases(es: seq<Entry>, ks: seq<Key>, cursor: nat)
    requires NoKey !in ks
    requires KeysMatch(es)
    ensures Evs(After(DropKeys(es, ks), cursor)) == Erase(Evs(After(es, cursor)), ks)
  {
    if es != [] {
      DropErases(es[1..], ks, cursor);
      assert DropKeys(es, ks)[1..] == DropKeys(es[1..], ks);
      var rest := After(es[1..], cursor);
      if es[0].seqNo > cursor && !es[0].dropped {
        assert After(es, cursor) == [es[0]] + rest;
        assert ([es[0]] + rest)[1..] == rest;
        assert Evs(After(es, cursor)) == [es[0].frame.ev] + Evs(rest);
        assert ([es[0].frame.ev] + Evs(rest))[1..] == Evs(rest);
        var d := DropKeys(es, ks);
        if es[0].key in ks {
          assert After(d, cursor) == After(d[1..], cursor);
        } else {
          assert After(d, cursor) == [es[0]] + After(d[1..], cursor);
          assert ([es[0]] + After(d[1..], cursor))[1..] == After(d[1..], cursor);
        }
      } else {
        assert After(es, cursor) == rest;
        assert After(DropKeys(es, ks), cursor) == After(DropKeys(es, ks)[1..], cursor);
      }
    }
  }

  lemma {:induction false} EvsAppend(es: seq<Entry>, e: Entry)
    requires e.frame.Frame?
    ensures Evs(es + [e]) == Evs(es) + [e.frame.ev]
  {
    if es == [] {
      assert es + [e] == [e] && [e][1..] == [];
    } else {
      var head := if es[0].frame.Frame? then [es[0].frame.ev] else [];
      assert (es + [e])[0] == es[0] && (es + [e])[1..] == es[1..] + [e];
      EvsAppend(es[1..], e);
      assert Evs(es) == head + Evs(es[1..]);
      assert Evs(es + [e]) == head + Evs(es[1..] + [e]);
    }
  }

  lemma {:induction false} EventsAfterAppend(ps: seq<Published>, p: Published, cursor: nat)
    ensures EventsAfter(ps + [p], cursor) == EventsAfter(ps, cursor) + (if p.seqNo > cursor then [p.ev] else [])
  {
    if ps == [] {
      assert ps + [p] == [p] && [p][1..] == [];
    } else {
      var head := if ps[0].seqNo > cursor then [ps[0].ev] else [];
      assert (ps + [p])[0] == ps[0] && (ps + [p])[1..] == ps[1..] + [p];
      EventsAfterAppend(ps[1..], p, cursor);
      assert EventsAfter(ps, cursor) == head + EventsAfter(ps[1..], cursor);
      assert EventsAfter(ps + [p], cursor) == head + EventsAfter(ps[1..] + [p], cursor);
    }
  }

  lemma {:induction false} NothingAfterLast(ps: seq<Published>, cursor: nat)
    requires forall i :: 0 <= i < |ps| ==> ps[i].seqNo <= cursor
    ensures EventsAfter(ps, cursor) == []
  {
    if ps != [] {
      NothingAfterLast(ps[1..], cursor);
    }
  }

  /** A publish adds its event to every replay and erases what it supersedes from it. */
  lemma PublishReplay(l: Log, ev: Event, size: nat, cursor: nat)
    requires LogValid(l) && Do(l, Publish(ev, size, true)).floor <= cursor <= l.last
    ensures Replayed(Do(l, Publish(ev, size, true)), cursor) == Erase(Replayed(l, cursor), Supersedes(ev)) + [ev]
  {
    hide Evs, Erase, After, DropKeys, Trimmed, FloorAfter, LiveOnly, KeyOf;
    var e := Entry(l.last + 1, Frame(ev, size), KeyOf(ev), false);
    var kept := DropKeys(l.entries, Supersedes(ev));
    DropKeysValid(l.entries, Supersedes(ev), l.floor, l.last);
    var es := kept + [e];
    assert ReplayLog.WellFormed(es);
    var t := AfterTrim(l, es, l.maxBytes, l.maxEntries);
    assert Do(l, Publish(ev, size, true)).entries == Repacked(t.entries);
    TrimKeepsReplay(l, es, l.maxBytes, l.maxEntries, cursor);
    RepackKeepsReplay(t.entries, cursor);
    assert After(Repacked(t.entries), cursor) == After(es, cursor);
    ReplayAppend(kept, e, cursor);
    DropErases(l.entries, Supersedes(ev), cursor);
  }

  lemma ReplayAppend(es: seq<Entry>, e: Entry, cursor: nat)
    requires e.frame.Frame? && !e.dropped && cursor < e.seqNo
    ensures Evs(After(es + [e], cursor)) == Evs(After(es, cursor)) + [e.frame.ev]
  {
    AfterAppend(es, e, cursor);
    EvsAppend(After(es, cursor), e);
  }

  // ---- the theorem ----

  ghost predicate AbsoluteStatuses(ops: seq<Op>) {
    forall i :: 0 <= i < |ops| && ops[i].Publish? && ops[i].ev.StatusChanged? ==> C.Absolute(ops[i].ev.status)
  }

  lemma PublishedAdds(l: Log, ev: Event, size: nat)
    ensures Do(l, Publish(ev, size, true)).published == l.published + [Published(l.last + 1, ev)]
  {
  }

  lemma ExactPublish(l: Log, ev: Event, size: nat, cursor: nat, c: C.Client)
    requires LogValid(l) && Do(l, Publish(ev, size, true)).floor <= cursor <= l.last
    requires C.WellFormed(c) && (ev.StatusChanged? ==> C.Absolute(ev.status))
    requires C.Fold(c, Replayed(l, cursor)) == C.Fold(c, EventsAfter(l.published, cursor))
    ensures C.Fold(c, Replayed(Do(l, Publish(ev, size, true)), cursor))
         == C.Fold(c, EventsAfter(Do(l, Publish(ev, size, true)).published, cursor))
  {
    PublishedAdds(l, ev, size);
    PublishReplay(l, ev, size, cursor);
    hide LogValid, Do, Replayed, EventsAfter, Erase, C.Fold, C.Step, C.WellFormed, C.Absolute, Supersedes;
    EventsAfterAppend(l.published, Published(l.last + 1, ev), cursor);
    EraseSuperseded(c, Replayed(l, cursor), ev);
    C.FoldLast(c, Replayed(l, cursor), ev);
    C.FoldLast(c, EventsAfter(l.published, cursor), ev);
  }

  /**
   For every run, every cursor still resumable at its end and every client there, folding
   the compacted replay gives the client the whole run gives.
   */
  lemma {:induction false} CompactedReplayIsExact(maxBytes: nat, maxEntries: nat, ops: seq<Op>, cursor: nat, c: C.Client)
    requires AbsoluteStatuses(ops) && C.WellFormed(c)
    requires Run(maxBytes, maxEntries, ops).floor <= cursor <= Run(maxBytes, maxEntries, ops).last
    ensures C.Fold(c, Replayed(Run(maxBytes, maxEntries, ops), cursor))
         == C.Fold(c, EventsAfter(Run(maxBytes, maxEntries, ops).published, cursor))
  {
    if ops == [] {
      return;
    }
    var before, op := ops[..|ops| - 1], ops[|ops| - 1];
    var l := Run(maxBytes, maxEntries, before);
    var l' := Run(maxBytes, maxEntries, ops);
    RunValid(maxBytes, maxEntries, before);
    DoValid(l, op);
    if cursor > l.last {
      AfterNone(l'.entries, cursor);
      NothingAfterLast(l'.published, cursor);
      return;
    }
    CompactedReplayIsExact(maxBytes, maxEntries, before, cursor, c);
    match op
    case Trim(bytes, count) =>
      TrimKeepsReplay(l, l.entries, bytes, count, cursor);
    case Publish(ev, size, encodable) =>
      if encodable {
        ExactPublish(l, ev, size, cursor, c);
      }
  }

  /** The events that are never superseded: edges, removals, messages and resolutions. */
  function Unkeyed(evs: seq<Event>): seq<Event> {
    if evs == [] then []
    else (if KeyOf(evs[0]) == NoKey then [evs[0]] else []) + Unkeyed(evs[1..])
  }

  lemma {:induction false} EraseKeepsUnkeyed(evs: seq<Event>, ks: seq<Key>)
    requires NoKey !in ks
    ensures Unkeyed(Erase(evs, ks)) == Unkeyed(evs)
  {
    if evs != [] {
      EraseKeepsUnkeyed(evs[1..], ks);
      if KeyOf(evs[0]) in ks {
        assert Erase(evs, ks) == Erase(evs[1..], ks);
      } else {
        assert Erase(evs, ks)[1..] == Erase(evs[1..], ks);
      }
    }
  }

  lemma {:induction false} UnkeyedAppend(evs: seq<Event>, e: Event)
    ensures Unkeyed(evs + [e]) == Unkeyed(evs) + (if KeyOf(e) == NoKey then [e] else [])
  {
    if evs == [] {
      assert [e][1..] == [];
    } else {
      assert (evs + [e])[1..] == evs[1..] + [e];
      UnkeyedAppend(evs[1..], e);
    }
  }

  lemma UnkeyedPublish(l: Log, ev: Event, size: nat, cursor: nat)
    requires LogValid(l) && Do(l, Publish(ev, size, true)).floor <= cursor <= l.last
    requires Unkeyed(Replayed(l, cursor)) == Unkeyed(EventsAfter(l.published, cursor))
    ensures Unkeyed(Replayed(Do(l, Publish(ev, size, true)), cursor))
         == Unkeyed(EventsAfter(Do(l, Publish(ev, size, true)).published, cursor))
  {
    PublishedAdds(l, ev, size);
    PublishReplay(l, ev, size, cursor);
    hide LogValid, Do, Replayed, EventsAfter, Erase, Unkeyed, Supersedes;
    EventsAfterAppend(l.published, Published(l.last + 1, ev), cursor);
    EraseKeepsUnkeyed(Replayed(l, cursor), Supersedes(ev));
    UnkeyedAppend(Erase(Replayed(l, cursor), Supersedes(ev)), ev);
    UnkeyedAppend(EventsAfter(l.published, cursor), ev);
  }

  /** Compaction loses no unkeyed event: every resumable replay has each once and in order. */
  lemma {:induction false} UnkeyedEventsReplay(maxBytes: nat, maxEntries: nat, ops: seq<Op>, cursor: nat)
    requires Run(maxBytes, maxEntries, ops).floor <= cursor <= Run(maxBytes, maxEntries, ops).last
    ensures Unkeyed(Replayed(Run(maxBytes, maxEntries, ops), cursor))
         == Unkeyed(EventsAfter(Run(maxBytes, maxEntries, ops).published, cursor))
  {
    if ops == [] {
      return;
    }
    var before, op := ops[..|ops| - 1], ops[|ops| - 1];
    var l := Run(maxBytes, maxEntries, before);
    var l' := Run(maxBytes, maxEntries, ops);
    RunValid(maxBytes, maxEntries, before);
    DoValid(l, op);
    if cursor > l.last {
      AfterNone(l'.entries, cursor);
      NothingAfterLast(l'.published, cursor);
      return;
    }
    UnkeyedEventsReplay(maxBytes, maxEntries, before, cursor);
    match op
    case Trim(bytes, count) =>
      TrimKeepsReplay(l, l.entries, bytes, count, cursor);
    case Publish(ev, size, encodable) =>
      if encodable {
        UnkeyedPublish(l, ev, size, cursor);
      }
  }
}

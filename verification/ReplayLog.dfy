/**
 The bounded replay log of one epoch. Entries superseded by a later entry are
 dropped, the oldest are evicted, and a cursor is resumable from the newest
 evicted live entry on.
 */
module ReplayLog {
  import opened Arithmetic
  import opened Events

  datatype Frame = NoFrame | Frame(ev: Event, size: nat)

  datatype Entry = Entry(seqNo: nat, frame: Frame, key: Key, dropped: bool)

  function Size(f: Frame): nat { if f.Frame? then f.size else 0 }

  function Tomb(e: Entry): Entry { Entry(e.seqNo, NoFrame, NoKey, true) }

  // ---- what the counters of a log mean ----

  function Bytes(es: seq<Entry>): nat {
    if es == [] then 0 else Size(es[0].frame) + Bytes(es[1..])
  }

  function Live(es: seq<Entry>): nat {
    if es == [] then 0 else (if es[0].dropped then 0 else 1) + Live(es[1..])
  }

  function Dropped(es: seq<Entry>): nat {
    if es == [] then 0 else (if es[0].dropped then 1 else 0) + Dropped(es[1..])
  }

  /** The sequence numbers registered under a key, in order. */
  function SeqsOf(es: seq<Entry>, k: Key): seq<nat> {
    if es == [] then []
    else (if es[0].key == k then [es[0].seqNo] else []) + SeqsOf(es[1..], k)
  }

  ghost predicate Ascending(es: seq<Entry>) {
    forall i, j :: 0 <= i < j < |es| ==> es[i].seqNo < es[j].seqNo
  }

  /** A dropped entry keeps nothing but its number; a live one has a frame. */
  ghost predicate WellFormed(es: seq<Entry>) {
    && Ascending(es)
    && forall i :: 0 <= i < |es| ==>
         if es[i].dropped then es[i] == Tomb(es[i]) else es[i].frame.Frame?
  }

  ghost predicate Indexed(byKey: map<Key, seq<nat>>, es: seq<Entry>) {
    && NoKey !in byKey
    && forall k: Key :: k != NoKey ==>
         if k in byKey then byKey[k] == SeqsOf(es, k) && SeqsOf(es, k) != [] else SeqsOf(es, k) == []
  }

  // ---- the operations as functions on the entries ----

  function DropKeys(es: seq<Entry>, ks: seq<Key>): (r: seq<Entry>)
    ensures |r| == |es|
    ensures forall i :: 0 <= i < |r| ==>
              r[i] == if es[i].key in ks then Tomb(es[i]) else es[i]
  {
    seq(|es|, i requires 0 <= i < |es| => if es[i].key in ks then Tomb(es[i]) else es[i])
  }

  function DropOne(es: seq<Entry>, k: Key): (r: seq<Entry>)
    ensures |r| == |es|
    ensures forall i :: 0 <= i < |r| ==> r[i] == if es[i].key == k then Tomb(es[i]) else es[i]
  {
    seq(|es|, i requires 0 <= i < |es| => if es[i].key == k then Tomb(es[i]) else es[i])
  }

  /** How many entries eviction takes from the front to reach the targets. */
  function EvictCount(es: seq<Entry>, targetBytes: nat, targetEntries: nat): (n: nat)
    ensures n <= |es|
    ensures Bytes(es[n..]) <= targetBytes && Live(es[n..]) <= targetEntries
  {
    assert es[0..] == es;
    if es == [] || (Bytes(es) <= targetBytes && Live(es) <= targetEntries) then 0
    else
      var n := 1 + EvictCount(es[1..], targetBytes, targetEntries);
      assert es[n..] == es[1..][n - 1..];
      n
  }

  function Trimmed(es: seq<Entry>, maxBytes: nat, maxEntries: nat): (n: nat)
    ensures n <= |es|
  {
    if Bytes(es) <= maxBytes && Live(es) <= maxEntries then 0
    else EvictCount(es, maxBytes * 9 / 10, maxEntries * 9 / 10)
  }

  /** The floor after evicting the first entries: the newest live one's number. */
  function FloorAfter(es: seq<Entry>, n: nat, floor: nat): nat
    requires n <= |es|
  {
    if n == 0 then floor
    else if es[n - 1].dropped then FloorAfter(es, n - 1, floor)
    else es[n - 1].seqNo
  }

  function LiveOnly(es: seq<Entry>): seq<Entry> {
    if es == [] then []
    else (if es[0].dropped then [] else [es[0]]) + LiveOnly(es[1..])
  }

  function Repacked(es: seq<Entry>): seq<Entry> {
    if Dropped(es) < 64 || Dropped(es) * 2 < |es| then es else LiveOnly(es)
  }

  /** The retained entries after a cursor, in order. */
  function After(es: seq<Entry>, cursor: nat): seq<Entry> {
    if es == [] then []
    else (if es[0].seqNo > cursor && !es[0].dropped then [es[0]] else []) + After(es[1..], cursor)
  }

  // ---- the log ----

  class SessionLog {
    const epoch: nat
    const maxBytes: nat
    const maxEntries: nat
    var last: nat
    var floor: nat
    var entries: seq<Entry>
    var bytes: int
    var live: int
    var dropped: int
    var byKey: map<Key, seq<nat>>

    ghost predicate Counted()
      reads this
    {
      && bytes == Bytes(entries)
      && live == Live(entries)
      && dropped == Dropped(entries)
    }

    ghost predicate Valid()
      reads this
    {
      && WellFormed(entries)
      && Within(entries, floor, last)
      && Counted()
      && Indexed(byKey, entries)
    }

    constructor (epoch: nat, maxBytes: nat, maxEntries: nat)
      ensures Valid() && this.epoch == epoch && this.maxBytes == maxBytes && this.maxEntries == maxEntries
      ensures last == 0 && floor == 0 && entries == []
    {
      this.epoch, this.maxBytes, this.maxEntries := epoch, maxBytes, maxEntries;
      last, floor, entries, bytes, live, dropped, byKey := 0, 0, [], 0, 0, 0, map[];
    }

    /** Reserves the next sequence number. */
    method Next() returns (s: nat)
      requires Valid()
      modifies this`last
      ensures Valid() && s == last == old(last) + 1
    {
      last := last + 1;
      s := last;
    }

    /** Binary search for a sequence number. */
    method Index(s: nat) returns (i: int)
      requires Ascending(entries)
      ensures i >= 0 ==> i < |entries| && entries[i].seqNo == s
      ensures i < 0 ==> forall j :: 0 <= j < |entries| ==> entries[j].seqNo != s
    {
      var lo, hi := 0, |entries|;
      while lo < hi
        invariant 0 <= lo <= hi <= |entries|
        invariant forall j :: 0 <= j < lo ==> entries[j].seqNo < s
        invariant forall j :: hi <= j < |entries| ==> entries[j].seqNo >= s
      {
        var mid := (lo + hi) / 2;
        if entries[mid].seqNo >= s {
          hi := mid;
        } else {
          lo := mid + 1;
        }
      }
      i := if lo < |entries| && entries[lo].seqNo == s then lo else -1;
    }

    method Drop(s: nat)
      requires WellFormed(entries) && Counted()
      modifies this`entries, this`bytes, this`live, this`dropped
      ensures WellFormed(entries) && Counted()
      ensures |entries| == |old(entries)|
      ensures forall i :: 0 <= i < |entries| ==>
                entries[i] == if old(entries)[i].seqNo == s then Tomb(old(entries)[i]) else old(entries)[i]
    {
      var i := Index(s);
      if i < 0 || entries[i].dropped {
        return;
      }
      CountsUpdate(entries, i, Tomb(entries[i]));
      bytes := bytes - Size(entries[i].frame);
      entries := entries[i := Tomb(entries[i])];
      live := live - 1;
      dropped := dropped + 1;
    }

    /** Drops every entry registered under one key. */
    method DropKey(k: Key)
      requires Valid() && k != NoKey
      modifies this`entries, this`bytes, this`live, this`dropped, this`byKey
      ensures Valid()
      ensures entries == DropOne(old(entries), k)
    {
      var seqs := if k in byKey then byKey[k] else [];
      DropAll(seqs);
      DropOneDone(old(entries), entries, k, seqs, byKey);
      byKey := byKey - {k};
    }

    method DropAll(seqs: seq<nat>)
      requires WellFormed(entries) && Counted()
      modifies this`entries, this`bytes, this`live, this`dropped
      ensures WellFormed(entries) && Counted() && |entries| == |old(entries)|
      ensures forall n :: 0 <= n < |entries| ==>
                entries[n] == if old(entries)[n].seqNo in seqs then Tomb(old(entries)[n]) else old(entries)[n]
    {
      ghost var was := entries;
      for j := 0 to |seqs|
        invariant WellFormed(entries) && Counted() && |entries| == |was|
        invariant forall n :: 0 <= n < |was| ==>
                    entries[n] == if was[n].seqNo in seqs[..j] then Tomb(was[n]) else was[n]
      {
        Drop(seqs[j]);
        assert seqs[..j + 1] == seqs[..j] + [seqs[j]];
      }
      assert seqs[..|seqs|] == seqs;
    }

    /** Drops every entry registered under the superseded keys. */
    method DropSuperseded(supersedes: seq<Key>)
      requires Valid() && NoKey !in supersedes
      modifies this`entries, this`bytes, this`live, this`dropped, this`byKey
      ensures Valid()
      ensures entries == DropKeys(old(entries), supersedes)
      ensures |entries| == |old(entries)|
      ensures forall i :: 0 <= i < |entries| ==> entries[i].seqNo == old(entries)[i].seqNo
    {
      ghost var before := entries;
      for i := 0 to |supersedes|
        invariant Valid()
        invariant entries == DropKeys(before, supersedes[..i])
      {
        DropKey(supersedes[i]);
        assert supersedes[..i + 1] == supersedes[..i] + [supersedes[i]];
        DropKeysStep(before, supersedes[..i], supersedes[i]);
      }
      assert supersedes[..|supersedes|] == supersedes;
    }

    /**
     Records a frame after dropping what it supersedes, and trims and repacks.
     It returns the change in retained bytes.
     */
    method Append(s: nat, frame: Frame, supersedes: seq<Key>, key: Key) returns (delta: int)
      requires Valid() && NoKey !in supersedes && frame.Frame?
      requires s == last && forall i :: 0 <= i < |entries| ==> entries[i].seqNo < s
      requires floor < s
      modifies this
      ensures Valid() && last == old(last)
      ensures delta == Bytes(entries) - Bytes(old(entries))
      ensures var es := DropKeys(old(entries), supersedes) + [Entry(s, frame, key, false)];
              var n := Trimmed(es, maxBytes, maxEntries);
              entries == Repacked(es[n..]) && floor == FloorAfter(es, n, old(floor))
      ensures Bounded()
    {
      var before := bytes;
      DropSuperseded(supersedes);
      Push(s, frame, key);
      Trim(maxBytes, maxEntries);
      Repack();
      delta := bytes - before;
    }

    /** Within the bounds, and never mostly dropped entries. */
    ghost predicate Bounded()
      reads this
    {
      bytes <= maxBytes && live <= maxEntries && |entries| <= Max(live + 63, 2 * live)
    }

    /** Adds and registers the newest entry. */
    method Push(s: nat, frame: Frame, key: Key)
      requires Valid() && frame.Frame? && floor < s == last
      requires forall i :: 0 <= i < |entries| ==> entries[i].seqNo < s
      modifies this`entries, this`bytes, this`live, this`byKey
      ensures Valid()
      ensures entries == old(entries) + [Entry(s, frame, key, false)]
    {
      var e := Entry(s, frame, key, false);
      CountsAppend(entries, e);
      PushValid(entries, e, byKey, floor);
      entries := entries + [e];
      bytes := bytes + frame.size;
      live := live + 1;
      if key != NoKey {
        byKey := byKey[key := (if key in byKey then byKey[key] else []) + [s]];
      }
    }

    /** Evicts the oldest entries until the log is within 90% of its bounds. */
    method Trim(maxBytes: nat, maxEntries: nat)
      requires Valid()
      modifies this`entries, this`bytes, this`live, this`dropped, this`byKey, this`floor
      ensures Valid()
      ensures var n := Trimmed(old(entries), maxBytes, maxEntries);
              entries == old(entries)[n..] && floor == FloorAfter(old(entries), n, old(floor))
      ensures bytes <= maxBytes && live <= maxEntries
    {
      if bytes <= maxBytes && live <= maxEntries {
        assert entries[0..] == entries;
        return;
      }
      var targetBytes, targetEntries := maxBytes * 9 / 10, maxEntries * 9 / 10;
      EvictTo(targetBytes, targetEntries);
    }

    method EvictTo(targetBytes: nat, targetEntries: nat)
      requires Valid()
      modifies this`entries, this`bytes, this`live, this`dropped, this`byKey, this`floor
      ensures Valid()
      ensures var n := EvictCount(old(entries), targetBytes, targetEntries);
              entries == old(entries)[n..] && floor == FloorAfter(old(entries), n, old(floor))
    {
      ghost var es, f := entries, floor;
      var n := 0;
      assert es[0..] == es;
      while n < |entries| && (bytes > targetBytes || live > targetEntries)
        invariant 0 <= n <= |es| && entries == es
        invariant bytes == Bytes(es[n..]) && live == Live(es[n..]) && dropped == Dropped(es[n..])
        invariant Indexed(byKey, es[n..])
        invariant floor == FloorAfter(es, n, f)
        invariant EvictCount(es, targetBytes, targetEntries) == n + EvictCount(es[n..], targetBytes, targetEntries)
      {
        assert es[n..][1..] == es[n + 1..];
        Evict(n);
        n := n + 1;
      }
      SuffixValid(es, n, f, last);
      entries := entries[n..];
    }

    method Evict(n: nat)
      requires WellFormed(entries) && n < |entries|
      requires Indexed(byKey, entries[n..])
      modifies this`bytes, this`live, this`dropped, this`byKey, this`floor
      ensures var e := entries[n];
              && bytes == old(bytes) - Size(e.frame)
              && live == old(live) - (if e.dropped then 0 else 1)
              && dropped == old(dropped) - (if e.dropped then 1 else 0)
              && floor == if e.dropped then old(floor) else e.seqNo
      ensures Indexed(byKey, entries[n..][1..])
    {
      var e := entries[n];
      if e.dropped {
        dropped := dropped - 1;
        return;
      }
      floor := e.seqNo;
      bytes := bytes - Size(e.frame);
      live := live - 1;
      if e.key != NoKey {
        var seqs := RemoveFirst(byKey[e.key], e.seqNo);
        if |seqs| == 0 {
          byKey := byKey - {e.key};
        } else {
          byKey := byKey[e.key := seqs];
        }
      }
    }

    /** Removes dropped entries once they are most of the slice. */
    method Repack()
      requires Valid()
      modifies this`entries, this`dropped
      ensures Valid() && entries == Repacked(old(entries))
      ensures bytes == old(bytes) && live == old(live)
      ensures |entries| <= Max(live + 63, 2 * live)
    {
      LiveDropped(entries);
      if dropped < 64 || dropped * 2 < |entries| {
        return;
      }
      var kept := [];
      for i := 0 to |entries|
        invariant unchanged(this)
        invariant kept == LiveOnly(entries[..i])
      {
        assert entries[..i + 1] == entries[..i] + [entries[i]];
        LiveOnlyAppend(entries[..i], entries[i]);
        if !entries[i].dropped {
          kept := kept + [entries[i]];
        }
      }
      assert entries[..|entries|] == entries;
      LiveOnlyCounts(entries);
      LiveOnlyMembers(entries);
      LiveOnlyWellFormed(entries);
      entries, dropped := kept, 0;
    }

    predicate Resumable(epoch: nat, s: nat)
      reads this
    {
      epoch == this.epoch && floor <= s <= last
    }

    /** The retained entries after a cursor. */
    method Replay(cursor: nat) returns (out: seq<Entry>)
      requires WellFormed(entries)
      ensures out == After(entries, cursor)
    {
      var lo, hi := 0, |entries|;
      while lo < hi
        invariant 0 <= lo <= hi <= |entries|
        invariant forall j :: 0 <= j < lo ==> entries[j].seqNo <= cursor
        invariant forall j :: hi <= j < |entries| ==> entries[j].seqNo > cursor
      {
        var mid := (lo + hi) / 2;
        if entries[mid].seqNo > cursor {
          hi := mid;
        } else {
          lo := mid + 1;
        }
      }
      AfterNone(entries[..lo], cursor);
      out := [];
      for i := lo to |entries|
        invariant out == After(entries[..i], cursor)
      {
        assert entries[..i + 1] == entries[..i] + [entries[i]];
        AfterAppend(entries[..i], entries[i], cursor);
        if !entries[i].dropped {
          out := out + [entries[i]];
        }
      }
      assert entries[..|entries|] == entries;
    }
  }

  /** The list without the first occurrence of a number. */
  method RemoveFirst(seqs: seq<nat>, s: nat) returns (r: seq<nat>)
    ensures s in seqs ==>
              exists i :: 0 <= i < |seqs| && seqs[i] == s && s !in seqs[..i] && r == seqs[..i] + seqs[i + 1..]
    ensures s !in seqs ==> r == seqs
    ensures seqs != [] && seqs[0] == s ==> r == seqs[1..]
  {
    var i := 0;
    while i < |seqs| && seqs[i] != s
      invariant 0 <= i <= |seqs| && s !in seqs[..i]
    {
      i := i + 1;
    }
    r := if i < |seqs| then seqs[..i] + seqs[i + 1..] else seqs;
  }

  // ---- lemmas about the counters ----

  lemma {:induction false} CountsUpdate(es: seq<Entry>, i: nat, e: Entry)
    requires i < |es|
    ensures Bytes(es[i := e]) == Bytes(es) - Size(es[i].frame) + Size(e.frame)
    ensures Live(es[i := e]) == Live(es) - (if es[i].dropped then 0 else 1) + (if e.dropped then 0 else 1)
    ensures Dropped(es[i := e]) == Dropped(es) - (if es[i].dropped then 1 else 0) + (if e.dropped then 1 else 0)
  {
    if i == 0 {
      assert es[i := e][1..] == es[1..];
    } else {
      assert es[i := e][1..] == es[1..][i - 1 := e];
      CountsUpdate(es[1..], i - 1, e);
    }
  }

  lemma {:induction false} CountsAppend(es: seq<Entry>, e: Entry)
    ensures Bytes(es + [e]) == Bytes(es) + Size(e.frame)
    ensures Live(es + [e]) == Live(es) + (if e.dropped then 0 else 1)
    ensures Dropped(es + [e]) == Dropped(es) + (if e.dropped then 1 else 0)
  {
    if es != [] {
      assert (es + [e])[1..] == es[1..] + [e];
      CountsAppend(es[1..], e);
    }
  }

  lemma {:induction false} LiveDropped(es: seq<Entry>)
    ensures Live(es) + Dropped(es) == |es|
  {
    if es != [] {
      LiveDropped(es[1..]);
    }
  }

  lemma {:induction false} SeqsMember(es: seq<Entry>, k: Key)
    ensures forall s :: s in SeqsOf(es, k) <==> exists i :: 0 <= i < |es| && es[i].key == k && es[i].seqNo == s
  {
    if es != [] {
      SeqsMember(es[1..], k);
      forall s
        ensures s in SeqsOf(es, k) <==> exists i :: 0 <= i < |es| && es[i].key == k && es[i].seqNo == s
      {
        if s in SeqsOf(es[1..], k) {
          var i :| 0 <= i < |es[1..]| && es[1..][i].key == k && es[1..][i].seqNo == s;
          assert es[i + 1].key == k && es[i + 1].seqNo == s;
        }
        if i :| 0 <= i < |es| && es[i].key == k && es[i].seqNo == s {
          if i > 0 {
            assert es[1..][i - 1].key == k && es[1..][i - 1].seqNo == s;
          }
        }
      }
    }
  }

  lemma DistinctSeqs(es: seq<Entry>, k: Key, n: nat)
    requires Ascending(es) && n < |es|
    ensures es[n].seqNo in SeqsOf(es, k) <==> es[n].key == k
  {
    SeqsMember(es, k);
    if i :| 0 <= i < |es| && es[i].key == k && es[i].seqNo == es[n].seqNo {
      assert !(i < n) && !(n < i);
    }
  }

  lemma DropKeysStep(es: seq<Entry>, ks: seq<Key>, k: Key)
    requires k != NoKey
    ensures DropOne(DropKeys(es, ks), k) == DropKeys(es, ks + [k])
  {
  }

  lemma DropOneDone(was: seq<Entry>, es: seq<Entry>, k: Key, seqs: seq<nat>, byKey: map<Key, seq<nat>>)
    requires WellFormed(was) && Indexed(byKey, was) && |es| == |was| && k != NoKey
    requires seqs == if k in byKey then byKey[k] else []
    requires forall n :: 0 <= n < |was| ==> es[n] == if was[n].seqNo in seqs then Tomb(was[n]) else was[n]
    ensures es == DropOne(was, k) && Indexed(byKey - {k}, es)
    ensures forall floor, last :: Within(was, floor, last) ==> Within(es, floor, last)
  {
    forall n | 0 <= n < |was|
      ensures es[n] == DropOne(was, k)[n]
    {
      DistinctSeqs(was, k, n);
    }
    assert es == DropOne(was, k);
    SeqsAfterDrop(was, k);
  }

  lemma {:induction false} SeqsAfterDrop(es: seq<Entry>, k: Key)
    requires k != NoKey
    ensures SeqsOf(DropOne(es, k), k) == []
    ensures forall k' :: k' != k && k' != NoKey ==> SeqsOf(DropOne(es, k), k') == SeqsOf(es, k')
  {
    if es != [] {
      SeqsAfterDrop(es[1..], k);
      assert DropOne(es, k)[1..] == DropOne(es[1..], k);
    }
  }

  lemma IndexedAppend(es: seq<Entry>, e: Entry, before: map<Key, seq<nat>>, after: map<Key, seq<nat>>)
    requires Indexed(before, es) && !e.dropped
    requires after == if e.key == NoKey then before
                      else before[e.key := (if e.key in before then before[e.key] else []) + [e.seqNo]]
    ensures Indexed(after, es + [e])
  {
    SeqsAppend(es, e);
  }

  lemma PushValid(es: seq<Entry>, e: Entry, byKey: map<Key, seq<nat>>, floor: nat)
    requires WellFormed(es) && Indexed(byKey, es) && !e.dropped && e.frame.Frame?
    requires Within(es, floor, e.seqNo) && floor < e.seqNo
    requires forall i :: 0 <= i < |es| ==> es[i].seqNo < e.seqNo
    ensures WellFormed(es + [e]) && Within(es + [e], floor, e.seqNo)
    ensures Indexed(
              if e.key == NoKey then byKey
              else byKey[e.key := (if e.key in byKey then byKey[e.key] else []) + [e.seqNo]],
              es + [e])
  {
    hide Indexed, SeqsOf;
    IndexedAppend(es, e, byKey,
      if e.key == NoKey then byKey
      else byKey[e.key := (if e.key in byKey then byKey[e.key] else []) + [e.seqNo]]);
  }

  ghost predicate Within(es: seq<Entry>, floor: nat, last: nat) {
    floor <= last && forall i :: 0 <= i < |es| ==> floor < es[i].seqNo <= last
  }

  lemma SuffixValid(es: seq<Entry>, n: nat, floor: nat, last: nat)
    requires WellFormed(es) && n <= |es| && Within(es, floor, last)
    ensures WellFormed(es[n..]) && Within(es[n..], FloorAfter(es, n, floor), last)
    ensures floor <= FloorAfter(es, n, floor)
  {
    FloorBound(es, n, floor);
  }

  lemma {:induction false} FloorBound(es: seq<Entry>, n: nat, floor: nat)
    requires n <= |es|
    ensures FloorAfter(es, n, floor) == floor
            || exists i :: 0 <= i < n && !es[i].dropped && FloorAfter(es, n, floor) == es[i].seqNo
  {
    if n > 0 && es[n - 1].dropped {
      FloorBound(es, n - 1, floor);
    }
  }

  /** The floor is the number of the newest live entry evicted, and stays where none was. */
  lemma {:induction false} FloorIs(es: seq<Entry>, n: nat, floor: nat, i: nat)
    requires i < n <= |es| && !es[i].dropped && forall j :: i < j < n ==> es[j].dropped
    ensures FloorAfter(es, n, floor) == es[i].seqNo
    decreases n
  {
    if i < n - 1 {
      FloorIs(es, n - 1, floor, i);
    }
  }

  lemma {:induction false} SeqsAppend(es: seq<Entry>, e: Entry)
    ensures forall k :: SeqsOf(es + [e], k) == SeqsOf(es, k) + (if e.key == k then [e.seqNo] else [])
  {
    if es != [] {
      assert (es + [e])[1..] == es[1..] + [e];
      SeqsAppend(es[1..], e);
    }
  }

  /**
   Within both bounds nothing is evicted; past one, just so many of the oldest entries that the
   rest is within 90 percent of both.
   */
  lemma TrimmedIs(es: seq<Entry>, maxBytes: nat, maxEntries: nat, i: nat)
    ensures var n, kept := Trimmed(es, maxBytes, maxEntries), es[Trimmed(es, maxBytes, maxEntries)..];
            && (n == 0 <==> Bytes(es) <= maxBytes && Live(es) <= maxEntries)
            && (n > 0 ==> 10 * Bytes(kept) <= 9 * maxBytes && 10 * Live(kept) <= 9 * maxEntries)
            && (i < n ==> 10 * (Bytes(es[i..]) + 1) > 9 * maxBytes || 10 * (Live(es[i..]) + 1) > 9 * maxEntries)
  {
    assert es[0..] == es;
    if i < Trimmed(es, maxBytes, maxEntries) {
      EvictCountMinimal(es, maxBytes * 9 / 10, maxEntries * 9 / 10, i);
    }
  }

  /** Dropped entries leave the slice only once they are 64 and at least half of it, and then all of them do. */
  lemma RepackedIs(es: seq<Entry>)
    requires WellFormed(es)
    ensures if Dropped(es) >= 64 && 2 * Dropped(es) >= |es|
            then Dropped(Repacked(es)) == 0 && Live(Repacked(es)) == Live(es) && forall e :: e in Repacked(es) <==> e in es && !e.dropped
            else Repacked(es) == es
  {
    LiveOnlyCounts(es);
    LiveOnlyMembers(es);
  }

  /** Eviction takes no more than it needs. */
  lemma {:induction false} EvictCountMinimal(es: seq<Entry>, targetBytes: nat, targetEntries: nat, i: nat)
    requires i < EvictCount(es, targetBytes, targetEntries)
    ensures Bytes(es[i..]) > targetBytes || Live(es[i..]) > targetEntries
  {
    if i == 0 {
      assert es[0..] == es;
    } else {
      EvictCountMinimal(es[1..], targetBytes, targetEntries, i - 1);
      assert es[1..][i - 1..] == es[i..];
    }
  }

  lemma {:induction false} LiveOnlyAppend(es: seq<Entry>, e: Entry)
    ensures LiveOnly(es + [e]) == LiveOnly(es) + (if e.dropped then [] else [e])
  {
    if es == [] {
      assert [e][1..] == [];
    } else {
      assert (es + [e])[1..] == es[1..] + [e];
      LiveOnlyAppend(es[1..], e);
    }
  }

  /** Removing dropped entries changes no counter but theirs. */
  lemma {:induction false} LiveOnlyCounts(es: seq<Entry>)
    requires forall i :: 0 <= i < |es| && es[i].dropped ==> es[i] == Tomb(es[i])
    ensures Bytes(LiveOnly(es)) == Bytes(es) && Live(LiveOnly(es)) == Live(es) && Dropped(LiveOnly(es)) == 0
    ensures |LiveOnly(es)| == Live(es)
    ensures forall k :: k != NoKey ==> SeqsOf(LiveOnly(es), k) == SeqsOf(es, k)
  {
    if es != [] {
      LiveOnlyCounts(es[1..]);
      if es[0].dropped {
        assert LiveOnly(es) == LiveOnly(es[1..]);
      } else {
        assert LiveOnly(es)[1..] == LiveOnly(es[1..]);
      }
    }
  }

  lemma {:induction false} LiveOnlyMembers(es: seq<Entry>)
    ensures forall e :: e in LiveOnly(es) <==> e in es && !e.dropped
  {
    if es != [] {
      LiveOnlyMembers(es[1..]);
      assert forall e :: e in es <==> e == es[0] || e in es[1..];
    }
  }

  lemma {:induction false} LiveOnlyWellFormed(es: seq<Entry>)
    requires WellFormed(es)
    ensures WellFormed(LiveOnly(es))
  {
    if es != [] {
      WellFormedTail(es);
      LiveOnlyWellFormed(es[1..]);
      LiveOnlyMembers(es[1..]);
      var rest := LiveOnly(es[1..]);
      if !es[0].dropped {
        forall e | e in rest
          ensures es[0].seqNo < e.seqNo
        {
          assert e in es[1..];
        }
        WellFormedCons(es[0], rest);
      }
    }
  }

  lemma WellFormedTail(es: seq<Entry>)
    requires WellFormed(es) && es != []
    ensures WellFormed(es[1..]) && forall e :: e in es[1..] ==> es[0].seqNo < e.seqNo
    ensures es[0].dropped || es[0].frame.Frame?
  {
  }

  lemma WellFormedCons(e: Entry, rest: seq<Entry>)
    requires WellFormed(rest) && !e.dropped && e.frame.Frame? && forall x :: x in rest ==> e.seqNo < x.seqNo
    ensures WellFormed([e] + rest)
  {
  }

  lemma {:induction false} AfterNone(es: seq<Entry>, cursor: nat)
    requires forall j :: 0 <= j < |es| ==> es[j].dropped || es[j].seqNo <= cursor
    ensures After(es, cursor) == []
  {
    if es != [] {
      AfterNone(es[1..], cursor);
    }
  }

  lemma {:induction false} AfterConcat(a: seq<Entry>, b: seq<Entry>, cursor: nat)
    ensures After(a + b, cursor) == After(a, cursor) + After(b, cursor)
  {
    if a == [] {
      assert a + b == b;
    } else {
      assert (a + b)[1..] == a[1..] + b;
      AfterConcat(a[1..], b, cursor);
    }
  }

  lemma AfterAppend(es: seq<Entry>, e: Entry, cursor: nat)
    ensures After(es + [e], cursor) == After(es, cursor) + (if e.seqNo > cursor && !e.dropped then [e] else [])
  {
    AfterConcat(es, [e], cursor);
    assert [e][1..] == [];
    assert After([e], cursor) == (if e.seqNo > cursor && !e.dropped then [e] else []) + After([e][1..], cursor);
  }
}

/**
 The duty limit of historical imports: one holder at a time, and a rest after each that
 keeps the work done to a share of the time. Times are in nanoseconds.
 */
module Backfill {
  import opened Arithmetic

  const MIN_REST: int := 10_000_000

  /** The rest a piece of work is followed by. */
  function Rest(percent: int, work: int): int
    requires 0 < percent
  {
    if percent < 100 then Max(MIN_REST, work * (100 - percent) / percent) else 0
  }

  /** No rest at all without a limit; below it the share of the work rounded down, and never less than ten milliseconds. */
  lemma RestIs(percent: int, work: int)
    requires 0 < percent && 0 <= work
    ensures percent >= 100 ==> Rest(percent, work) == 0
    ensures percent < 100 ==>
              var r := Rest(percent, work);
              && r >= 10_000_000 && percent * r > work * (100 - percent) - percent
              && (r == 10_000_000 || percent * r <= work * (100 - percent))
  {
    if percent < 100 {
      var a := work * (100 - percent);
      var q := a / percent;
      assert a - percent < percent * q <= a;
      assert Rest(percent, work) == Max(MIN_REST, q);
      Scaled(percent, q, Rest(percent, work));
    }
  }

  /** One holding of the slot: it started after the rest before it, and ended. */
  datatype Holding = Holding(start: int, end: int)

  function Next(percent: int, h: Holding): int
    requires 0 < percent
  {
    h.end + Rest(percent, h.end - h.start)
  }

  ghost predicate Spaced(percent: int, hs: seq<Holding>)
    requires 0 < percent
  {
    && (forall i :: 0 <= i < |hs| ==> hs[i].start <= hs[i].end)
    && (forall i :: 0 < i < |hs| ==> Next(percent, hs[i - 1]) <= hs[i].start)
  }

  function Work(hs: seq<Holding>): int {
    if hs == [] then 0 else Work(hs[..|hs| - 1]) + hs[|hs| - 1].end - hs[|hs| - 1].start
  }

  lemma OneHolding(percent: int, h: Holding)
    requires 0 < percent < 100 && h.start <= h.end
    ensures percent * (Next(percent, h) - h.start) >= 100 * (h.end - h.start) - percent
  {
    var work := h.end - h.start;
    var q := work * (100 - percent) / percent;
    assert percent * q >= work * (100 - percent) - percent;
    assert percent * Rest(percent, work) >= percent * q by { Scaled(percent, q, Rest(percent, work)); }
    assert percent * (work + Rest(percent, work)) == percent * work + percent * Rest(percent, work);
    assert work * (100 - percent) == 100 * work - percent * work;
  }

  lemma Scaled(p: int, a: int, b: int)
    requires 0 < p && a <= b
    ensures p * a <= p * b
  {
  }

  /**
   Any consecutive holdings take at most their share of the time up to when the next may
   start, give or take a nanosecond each.
   */
  lemma {:induction false} DutyBound(percent: int, hs: seq<Holding>)
    requires 0 < percent < 100 && hs != [] && Spaced(percent, hs)
    ensures percent * (Next(percent, hs[|hs| - 1]) - hs[0].start) >= 100 * Work(hs) - percent * |hs|
    decreases |hs|
  {
    hide Next, Rest;
    var last, first := hs[|hs| - 1], hs[0].start;
    OneHolding(percent, last);
    if |hs| > 1 {
      var most := hs[..|hs| - 1];
      DutyBound(percent, most);
      Scaled(percent, Next(percent, most[|most| - 1]) - first, last.start - first);
      Distributed(percent, Next(percent, last) - last.start, last.start - first);
      Distributed(percent, |most|, 1);
      assert Next(percent, most[|most| - 1]) <= last.start;
      assert Work(hs) == Work(most) + last.end - last.start;
    }
  }

  lemma Distributed(p: int, a: int, b: int)
    ensures p * (a + b) == p * a + p * b
  {
  }

  // ---- the slot and its waiters ----

  /** Where a source's worker is: asking for the slot, resting with it, or importing with it. */
  datatype Worker = Out | Selecting | Cooling(id: nat, due: int) | Working(id: nat, start: int)

  /**
   The limiter and every worker that uses it. `acquired` counts the times the slot was taken,
   and `freed` lists which of them gave it back, in order.
   */
  datatype Limiter = Limiter(
    percent: int,
    slot: nat,               // the tokens in the slot's channel of capacity one
    next: int,
    clock: int,
    workers: map<nat, Worker>,
    acquired: nat,
    freed: seq<nat>,
    holdings: seq<Holding>)

  function NewLimiter(percent: int, next: int, clock: int): Limiter { Limiter(percent, 0, next, clock, map[], 0, [], []) }

  datatype Step =
    | Ask(w: nat, done: bool)                   // `done`: the context has ended already
    | Cancel(w: nat)                            // the context ends while it waits
    | Attend(w: nat)                            // a wake while it waits
    | Take(w: nat, now: int)                    // the slot is free: the cooldown begins
    | Rested(w: nat, now: int, cancelled: bool) // the cooldown is over
    | Finish(w: nat, now: int)                  // the entry was imported, retained or skipped

  function At(l: Limiter, w: nat): Worker { if w in l.workers then l.workers[w] else Out }

  predicate Holds(l: Limiter, w: nat) { At(l, w).Cooling? || At(l, w).Working? }

  function Goes(l: Limiter, w: nat, to: Worker): Limiter { l.(workers := l.workers[w := to]) }

  /** The slot's token is taken out of the channel again. */
  function Free(l: Limiter, w: nat): Limiter
    requires Holds(l, w) && l.slot > 0
  {
    Goes(l, w, Out).(slot := l.slot - 1, freed := l.freed + [At(l, w).id])
  }

  function Do(l: Limiter, step: Step): Limiter {
    match step
    case Ask(w, done) => if At(l, w).Out? && !done then Goes(l, w, Selecting) else l
    case Cancel(w) =>
      if At(l, w).Selecting? then Goes(l, w, Out)
      else if At(l, w).Cooling? && l.slot > 0 then Free(l, w)
      else l
    case Attend(_) => l
    case Take(w, now) =>
      if At(l, w).Selecting? && l.slot == 0 && l.clock <= now
      then Goes(l, w, Cooling(l.acquired, Max(now, l.next))).(slot := 1, acquired := l.acquired + 1, clock := now)
      else l
    case Rested(w, now, cancelled) =>
      if At(l, w).Cooling? && At(l, w).due <= now && l.clock <= now && l.slot > 0
      then (if cancelled then Free(l, w) else Goes(l, w, Working(At(l, w).id, now))).(clock := now)
      else l
    case Finish(w, now) =>
      if At(l, w).Working? && l.clock <= now && l.slot > 0 && 0 < l.percent
      then
        var h := Holding(At(l, w).start, now);
        Free(l, w).(clock := now, next := Next(l.percent, h), holdings := l.holdings + [h])
      else l
  }

  function Run(l: Limiter, steps: seq<Step>): Limiter
    decreases |steps|
  {
    if steps == [] then l else Run(Do(l, steps[0]), steps[1..])
  }

  // ---- what every step keeps ----

  /** The slot is full exactly while one worker, and no other, holds it. */
  ghost predicate SlotValid(l: Limiter) {
    && l.slot <= 1
    && (forall w :: Holds(l, w) ==> l.slot == 1)
    && (l.slot == 1 ==> exists w :: Holds(l, w))
    && (forall w, v :: Holds(l, w) && Holds(l, v) ==> w == v)
  }

  /** Each taking but the holder's was given back, once and in order. */
  ghost predicate FreedValid(l: Limiter) {
    && |l.freed| + l.slot == l.acquired
    && (forall i :: 0 <= i < |l.freed| ==> l.freed[i] == i)
    && (forall w :: Holds(l, w) ==> At(l, w).id == |l.freed|)
  }

  ghost predicate RestValid(l: Limiter) {
    && 0 < l.percent && Spaced(l.percent, l.holdings)
    && (l.holdings != [] ==> l.next == Next(l.percent, l.holdings[|l.holdings| - 1]))
    && (forall w :: At(l, w).Cooling? ==> l.next <= At(l, w).due)
    && (forall w :: At(l, w).Working? ==> l.next <= At(l, w).start <= l.clock)
  }

  ghost predicate Inv(l: Limiter) { SlotValid(l) && FreedValid(l) && RestValid(l) }

  /** A step moves its own worker only. */
  lemma OthersStay(l: Limiter, step: Step, w: nat)
    requires step.Attend? || w != step.w
    ensures At(Do(l, step), w) == At(l, w)
  {
  }

  /** Who holds the slot after a step: its worker, when it took or kept it, or whoever held it before. */
  lemma HolderStep(l: Limiter, step: Step, w: nat)
    requires SlotValid(l)
    ensures var m := Do(l, step);
            Holds(m, w) <==>
              if m.slot == 0 then false
              else if l.slot == 0 then step.Take? && w == step.w
              else Holds(l, w)
  {
    if !step.Attend? && w != step.w {
      OthersStay(l, step, w);
      assert Holds(l, w) && Holds(l, step.w) ==> w == step.w;
    }
  }

  lemma SlotKeeps(l: Limiter, step: Step)
    requires SlotValid(l)
    ensures SlotValid(Do(l, step))
  {
    var m := Do(l, step);
    forall w
      ensures Holds(m, w) <==>
                if m.slot == 0 then false
                else if l.slot == 0 then step.Take? && w == step.w
                else Holds(l, w)
    {
      HolderStep(l, step, w);
    }
    SlotMoves(l, step);
    hide Do, Holds;
    if m.slot == 1 && l.slot == 0 {
      assert Holds(m, step.w);
    }
  }

  lemma SlotMoves(l: Limiter, step: Step)
    requires l.slot <= 1
    ensures var m := Do(l, step); m.slot <= 1 && (l.slot == 0 && m.slot == 1 ==> step.Take?)
  {
  }

  lemma FreedKeeps(l: Limiter, step: Step)
    requires SlotValid(l) && FreedValid(l)
    ensures FreedValid(Do(l, step))
  {
    var m := Do(l, step);
    forall w | Holds(m, w)
      ensures At(m, w).id == |m.freed|
    {
      HolderStep(l, step, w);
      if !step.Attend? && w != step.w {
        OthersStay(l, step, w);
      }
    }
  }

  lemma RestKeeps(l: Limiter, step: Step)
    requires SlotValid(l) && RestValid(l)
    ensures RestValid(Do(l, step))
  {
    hide Next, Work, Rest;
    var m := Do(l, step);
    forall w
      ensures At(m, w).Cooling? ==> m.next <= At(m, w).due
      ensures At(m, w).Working? ==> m.next <= At(m, w).start <= m.clock
    {
      HolderStep(l, step, w);
      if !step.Attend? && w != step.w {
        OthersStay(l, step, w);
      }
    }
  }

  lemma DoKeeps(l: Limiter, step: Step)
    requires Inv(l)
    ensures Inv(Do(l, step))
  {
    SlotKeeps(l, step);
    FreedKeeps(l, step);
    RestKeeps(l, step);
    hide SlotValid, FreedValid, RestValid;
  }

  lemma {:induction false} RunKeeps(l: Limiter, steps: seq<Step>)
    requires Inv(l)
    ensures Inv(Run(l, steps))
    decreases |steps|
  {
    hide Inv, Do;
    if steps != [] {
      DoKeeps(l, steps[0]);
      RunKeeps(Do(l, steps[0]), steps[1..]);
    }
  }

  // ---- what it means over a run ----

  /**
   However the workers' attempts interleave and end: at most one holds the slot, it is free
   exactly when none does, and every taking but the present holder's was given back once.
   */
  lemma OneHolder(percent: int, next: int, clock: int, steps: seq<Step>)
    requires 0 < percent
    ensures var l := Run(NewLimiter(percent, next, clock), steps);
            && (forall w, v :: Holds(l, w) && Holds(l, v) ==> w == v)
            && (l.slot == 0 <==> forall w :: !Holds(l, w))
            && l.acquired == |l.freed| + (if exists w :: Holds(l, w) then 1 else 0)
            && (forall i :: 0 <= i < |l.freed| ==> l.freed[i] == i)
            && (forall w :: Holds(l, w) ==> At(l, w).id !in l.freed)
  {
    RunKeeps(NewLimiter(percent, next, clock), steps);
    hide Run;
  }

  /** Every way out of a held slot frees it: the next worker that asks takes it. */
  lemma ExitFrees(l: Limiter, step: Step, w: nat, v: nat, now: int)
    requires Inv(l) && Holds(l, w) && !Holds(Do(l, step), w)
    requires At(Do(l, step), v).Selecting? && Do(l, step).clock <= now
    ensures var m := Do(l, step);
            && At(m, w).Out? && m.slot == 0 && m.freed == l.freed + [At(l, w).id]
            && Holds(Do(m, Take(v, now)), v)
  {
  }

  /** A context that ends while its worker waits takes it out, and frees the slot if it rested with it; one that ended before asks for nothing. */
  lemma CancelLeaves(l: Limiter, w: nat)
    requires Inv(l)
    ensures At(l, w).Out? ==> Do(l, Ask(w, true)) == l && At(Do(l, Ask(w, false)), w).Selecting?
    ensures var m := Do(l, Cancel(w));
            && (At(l, w).Selecting? ==> At(m, w).Out? && m.slot == l.slot && m.freed == l.freed)
            && (At(l, w).Cooling? ==> At(m, w).Out? && m.slot == 0 && m.freed == l.freed + [At(l, w).id])
            && (At(l, w).Out? || At(l, w).Working? ==> m == l)
            && m.next == l.next && m.holdings == l.holdings
  {
    assert At(l, w).Cooling? ==> Holds(l, w);
  }

  /** A worker that finds the slot free may start work as soon as the rest after the last work is over, and no sooner. */
  lemma StartsWhenDue(l: Limiter, w: nat, now: int, later: int)
    requires Inv(l) && At(l, w).Selecting? && l.slot == 0 && l.clock <= now <= later
    ensures var m := Do(Do(l, Take(w, now)), Rested(w, later, false));
            if l.next <= later then At(m, w) == Working(l.acquired, later) && m.next == l.next
            else At(m, w).Cooling? && At(m, w).due == l.next
  {
  }

  /** The end of work frees the slot and fixes when the next may start. */
  lemma FinishedRests(l: Limiter, w: nat, now: int)
    requires Inv(l) && At(l, w).Working? && l.clock <= now
    ensures var m, start := Do(l, Finish(w, now)), At(l, w).start;
            && At(m, w).Out? && m.slot == 0 && m.holdings == l.holdings + [Holding(start, now)]
            && start <= now <= m.next
            && (l.percent >= 100 ==> m.next == now)
            && (l.percent < 100 ==> m.next - now == 10_000_000 || l.percent * (m.next - now) <= (now - start) * (100 - l.percent))
  {
    assert Holds(l, w);
    RestIs(l.percent, now - At(l, w).start);
    hide Rest;
  }

  /** Work starts only after the rest due, and any consecutive work of a run stays within its share. */
  lemma DutyOverRun(percent: int, next: int, clock: int, steps: seq<Step>, i: nat, j: nat)
    requires 0 < percent < 100
    requires i < j <= |Run(NewLimiter(percent, next, clock), steps).holdings|
    ensures var hs := Run(NewLimiter(percent, next, clock), steps).holdings[i..j];
            && Spaced(percent, hs)
            && percent * (Next(percent, hs[|hs| - 1]) - hs[0].start) >= 100 * Work(hs) - percent * |hs|
  {
    RunKeeps(NewLimiter(percent, next, clock), steps);
    RunPercent(NewLimiter(percent, next, clock), steps);
    hide Run, Next;
    var hs := Run(NewLimiter(percent, next, clock), steps).holdings[i..j];
    DutyBound(percent, hs);
  }

  lemma {:induction false} RunPercent(l: Limiter, steps: seq<Step>)
    ensures Run(l, steps).percent == l.percent
    decreases |steps|
  {
    if steps != [] {
      RunPercent(Do(l, steps[0]), steps[1..]);
    }
  }

  // ---- in place ----

  /** The slot, the time the next work may start, and the workers waiting for it. */
  class BackfillLimiter {
    const percent: int
    var slot: nat
    var next: int
    var workers: map<nat, Worker>
    ghost var clock: int
    var acquired: nat
    ghost var freed: seq<nat>
    ghost var holdings: seq<Holding>

    ghost function View(): Limiter
      reads this
    {
      Limiter(percent, slot, next, clock, workers, acquired, freed, holdings)
    }

    constructor (percent: int)
      requires 0 < percent
      ensures View() == NewLimiter(percent, 0, 0) && Inv(View())
    {
      this.percent, slot, next, workers := percent, 0, 0, map[];
      clock, acquired, freed, holdings := 0, 0, [], [];
    }

    /** A worker asks for the slot, unless its context has ended. */
    method Acquire(w: nat, done: bool)
      requires Inv(View()) && (w in workers ==> workers[w].Out?)
      modifies this
      ensures Inv(View()) && View() == Do(old(View()), Ask(w, done))
    {
      DoKeeps(View(), Ask(w, done));
      if !done {
        workers := workers[w := Selecting];
      }
    }

    /** One turn of the wait for the slot: it goes to a worker only while its channel is empty. */
    method Select(w: nat, now: int) returns (taken: bool)
      requires Inv(View()) && w in workers && workers[w].Selecting? && clock <= now
      modifies this
      ensures Inv(View()) && View() == Do(old(View()), Take(w, now))
      ensures taken <==> forall v :: !Holds(old(View()), v)
    {
      DoKeeps(View(), Take(w, now));
      taken := slot == 0;
      if taken {
        slot := slot + 1;
        workers := workers[w := Cooling(acquired, Max(now, next))];
        acquired, clock := acquired + 1, now;
      }
    }

    /** The end of the cooldown: the worker starts, or gives the slot back. */
    method Cooldown(w: nat, now: int, cancelled: bool) returns (started: bool)
      requires Inv(View()) && w in workers && workers[w].Cooling? && workers[w].due <= now && clock <= now
      modifies this
      ensures Inv(View()) && View() == Do(old(View()), Rested(w, now, cancelled))
      ensures started == !cancelled && (started ==> next <= now)
    {
      DoKeeps(View(), Rested(w, now, cancelled));
      assert Holds(View(), w);
      started := !cancelled;
      clock := now;
      if started {
        workers := workers[w := Working(workers[w].id, now)];
      } else {
        GiveBack(w);
      }
    }

    /** The context ends while a worker waits. */
    method Cancelled(w: nat)
      requires Inv(View()) && w in workers && (workers[w].Selecting? || workers[w].Cooling?)
      modifies this
      ensures Inv(View()) && View() == Do(old(View()), Cancel(w))
    {
      DoKeeps(View(), Cancel(w));
      if workers[w].Selecting? {
        workers := workers[w := Out];
      } else {
        assert Holds(View(), w);
        GiveBack(w);
      }
    }

    method GiveBack(w: nat)
      requires slot > 0 && Holds(View(), w)
      modifies `slot, `workers, `freed
      ensures View() == Free(old(View()), w)
    {
      freed := freed + [workers[w].id];
      workers := workers[w := Out];
      slot := slot - 1;
    }

    /** The work is done: the rest is due from now on. */
    method Release(w: nat, now: int)
      requires Inv(View()) && w in workers && workers[w].Working? && clock <= now
      modifies this
      ensures Inv(View()) && View() == Do(old(View()), Finish(w, now))
    {
      DoKeeps(View(), Finish(w, now));
      assert Holds(View(), w);
      var start := workers[w].start;
      next := now + Rest(percent, now - start);
      holdings, clock := holdings + [Holding(start, now)], now;
      GiveBack(w);
    }
  }
}

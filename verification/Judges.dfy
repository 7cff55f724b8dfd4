/**
 The claims of automatic permission judges: a key is claimed by one judge at a time, and
 no bookkeeping frees or forgets the entry of a judge that is running.
 */
module Judges {

  const MAX_VERDICTS: nat := 4096

  datatype Verdict = NoVerdict | Safe | Unsafe | NeedsUser

  /** `judge` names the judge running for the key, 0 when none is: the record's cancel function. */
  datatype Status = Status(
    judge: nat,
    startsAt: int,
    checking: bool,
    verdict: Verdict,
    reasoning: string,
    fromRule: bool,          // the reasoning is the session's own rule
    inFlight: bool,
    succeeded: bool,
    expected: string,        // the reply we sent
    observed: string,        // a reply seen while ours is in flight
    capturing: bool,
    resolvedAt: int,
    recheck: bool)           // start over when the running judge lets go

  const BLANK: Status := Status(0, 0, false, NoVerdict, "", false, false, false, "", "", false, 0, false)

  /** Forgetting records only to keep their number, never one a judge runs for. */
  ghost predicate Pruned(was: map<string, Status>, now: map<string, Status>, keep: string) {
    && (forall k :: k in now ==> k in was && now[k] == was[k])
    && (forall k :: k in was && k !in now ==> k != keep && was[k].judge == 0)
    && (now != was ==> |now| >= MAX_VERDICTS)
    && (|now| <= MAX_VERDICTS || forall k :: k in now && k != keep ==> now[k].judge != 0)
  }

  // ---- the table's steps ----

  /** The records, and the judges granted a claim that have not let go. */
  datatype Records = Records(status: map<string, Status>, nextJudge: nat, running: set<(string, nat)>)

  const NO_RECORDS: Records := Records(map[], 1, {})

  datatype Step =
    | Claims(k: string, startsAt: int)
    | LetsGo(k: string, judge: nat)
    | Judges(k: string, verdict: Verdict, reasoning: string, fromRule: bool)
    | Begins(k: string, expected: string)
    | Ends(k: string, succeeded: bool)
    | Captured(k: string)
    | Resumes(k: string)

  function RecordOf(t: Records, k: string): Status { if k in t.status then t.status[k] else BLANK }

  /** The reply sent is ours unless another was observed meanwhile. */
  predicate Ours(st: Status, succeeded: bool) { succeeded && (st.observed == "" || st.observed == st.expected) }

  /** Nothing but a reply capture uses the record. */
  predicate Unused(st: Status) {
    && st.judge == 0 && st.startsAt == 0 && !st.checking && st.verdict == NoVerdict && st.reasoning == ""
    && !st.inFlight && !st.succeeded && st.observed == ""
  }

  predicate Resumable(st: Status) { st.resolvedAt <= 0 && !st.inFlight && !st.succeeded && st.fromRule }

  /** A step of the table; which idle records a full table forgets is left open. */
  ghost predicate Moves(t: Records, step: Step, u: Records) {
    match step
    case Claims(k, startsAt) =>
      if k in t.status then u == t
      else
        && u.nextJudge == t.nextJudge + 1 && u.running == t.running + {(k, t.nextJudge)}
        && Pruned(t.status[k := BLANK.(judge := t.nextJudge, startsAt := startsAt)], u.status, k)
    case LetsGo(k, judge) =>
      && (k, judge) in t.running && k in t.status
      && u.nextJudge == t.nextJudge && u.running == t.running - {(k, judge)}
      && (if t.status[k].verdict == NoVerdict then u.status == t.status - {k}
          else Pruned(t.status[k := t.status[k].(judge := 0, recheck := false)], u.status, k))
    case Judges(k, verdict, reasoning, fromRule) =>
      && u.nextJudge == t.nextJudge && u.running == t.running
      && Pruned(t.status[k := RecordOf(t, k).(verdict := verdict, reasoning := reasoning, fromRule := fromRule)], u.status, k)
    case Begins(k, expected) =>
      u == t.(status := t.status[k := RecordOf(t, k).(inFlight := true, succeeded := false, expected := expected)])
    case Ends(k, succeeded) =>
      if k !in t.status then u == t
      else
        var st := t.status[k];
        u == t.(status := t.status[k := st.(inFlight := false, succeeded := Ours(st, succeeded), observed := "")])
    case Captured(k) =>
      if k !in t.status then u == t
      else if Unused(t.status[k]) then u == t.(status := t.status - {k})
      else u == t.(status := t.status[k := t.status[k].(capturing := false)])
    case Resumes(k) =>
      if k !in t.status || !Resumable(t.status[k]) then u == t
      else if t.status[k].judge == 0 then u == t.(status := t.status - {k})
      else u == t.(status := t.status[k := t.status[k].(verdict := NoVerdict, recheck := true)])
  }

  /** A judge runs for a key exactly when the key's record carries it. */
  ghost predicate ClaimsValid(t: Records) {
    && (forall k, j :: (k, j) in t.running <==> j > 0 && k in t.status && t.status[k].judge == j)
    && (forall k :: k in t.status ==> t.status[k].judge < t.nextJudge)
    && t.nextJudge > 0
  }

  lemma MovesKeep(t: Records, step: Step, u: Records)
    requires ClaimsValid(t) && Moves(t, step, u)
    ensures ClaimsValid(u)
  {
    hide ClaimsValid, Pruned, Unused, Ours;
    match step
    case Claims(k, startsAt) =>
      if k !in t.status {
        ClaimValid(t, k, startsAt);
        PrunedValid(t.status[k := BLANK.(judge := t.nextJudge, startsAt := startsAt)], u, k);
      }
    case LetsGo(k, judge) =>
      LetGoValid(t, k, judge);
      if t.status[k].verdict != NoVerdict {
        PrunedValid(t.status[k := t.status[k].(judge := 0, recheck := false)], u, k);
      }
    case Judges(k, verdict, reasoning, fromRule) =>
      var st := RecordOf(t, k).(verdict := verdict, reasoning := reasoning, fromRule := fromRule);
      RecordValid(t, k, st);
      PrunedValid(t.status[k := st], u, k);
    case Begins(k, expected) => RecordValid(t, k, RecordOf(t, k).(inFlight := true, succeeded := false, expected := expected));
    case Ends(k, succeeded) =>
      RecordValid(t, k, RecordOf(t, k).(inFlight := false, succeeded := Ours(RecordOf(t, k), succeeded), observed := ""));
    case Captured(k) =>
      RecordValid(t, k, RecordOf(t, k).(capturing := false));
      IdleDropped(t, k);
    case Resumes(k) =>
      RecordValid(t, k, RecordOf(t, k).(verdict := NoVerdict, recheck := true));
      IdleDropped(t, k);
  }

  /** A change to a record that leaves its judge alone. */
  lemma RecordValid(t: Records, k: string, st: Status)
    requires ClaimsValid(t) && st.judge == RecordOf(t, k).judge
    ensures ClaimsValid(t.(status := t.status[k := st]))
  {
  }

  lemma IdleDropped(t: Records, k: string)
    requires ClaimsValid(t)
    ensures k in t.status && (t.status[k].judge == 0 || Unused(t.status[k])) ==> ClaimsValid(t.(status := t.status - {k}))
  {
  }

  lemma ClaimValid(t: Records, k: string, startsAt: int)
    requires ClaimsValid(t) && k !in t.status
    ensures ClaimsValid(Records(t.status[k := BLANK.(judge := t.nextJudge, startsAt := startsAt)], t.nextJudge + 1,
                                t.running + {(k, t.nextJudge)}))
  {
  }

  lemma LetGoValid(t: Records, k: string, judge: nat)
    requires ClaimsValid(t) && (k, judge) in t.running
    ensures k in t.status
    ensures ClaimsValid(t.(status := t.status - {k}, running := t.running - {(k, judge)}))
    ensures ClaimsValid(t.(status := t.status[k := t.status[k].(judge := 0, recheck := false)], running := t.running - {(k, judge)}))
  {
  }

  /** Forgetting idle records forgets no judge. */
  lemma PrunedValid(was: map<string, Status>, u: Records, keep: string)
    requires Pruned(was, u.status, keep) && ClaimsValid(u.(status := was))
    ensures ClaimsValid(u)
  {
  }

  ghost predicate Trace(ts: seq<Records>, steps: seq<Step>) {
    |ts| == |steps| + 1 && forall i :: 0 <= i < |steps| ==> Moves(ts[i], steps[i], ts[i + 1])
  }

  lemma {:induction false} TraceKeeps(ts: seq<Records>, steps: seq<Step>, i: nat)
    requires Trace(ts, steps) && ClaimsValid(ts[0]) && i < |ts|
    ensures ClaimsValid(ts[i])
  {
    hide ClaimsValid, Moves;
    if i > 0 {
      TraceKeeps(ts, steps, i - 1);
      MovesKeep(ts[i - 1], steps[i - 1], ts[i]);
    }
  }

  /**
   In every run of claims, releases, verdicts, replies, captures and resumptions, whatever a
   full table forgets, no key ever has two judges, a key with one has its record, and a claim
   is granted only to a key without one.
   */
  lemma OneJudge(ts: seq<Records>, steps: seq<Step>, n: nat, k: string)
    requires Trace(ts, steps) && ts[0] == NO_RECORDS && n < |ts|
    ensures forall i, j :: (k, i) in ts[n].running && (k, j) in ts[n].running ==> i == j
    ensures forall j :: (k, j) in ts[n].running ==> k in ts[n].status
    ensures n < |steps| && steps[n].Claims? && steps[n].k == k && ts[n + 1].running != ts[n].running ==>
              (forall j :: (k, j) !in ts[n].running) && ts[n + 1].running == ts[n].running + {(k, ts[n].nextJudge)}
  {
    TraceKeeps(ts, steps, n);
  }

  // ---- starting over ----

  /** The judge of a key whose record asks to start over, and what was decided since. */
  ghost predicate Awaits(t: Records, k: string, judge: nat) {
    (k, judge) in t.running && k in t.status && t.status[k].recheck
  }

  /** A verdict for the key. */
  predicate Decides(step: Step, k: string) { step.Judges? && step.k == k }

  lemma AwaitsKeeps(t: Records, step: Step, u: Records, k: string, judge: nat)
    requires ClaimsValid(t) && Moves(t, step, u) && Awaits(t, k, judge) && step != LetsGo(k, judge)
    ensures Awaits(u, k, judge)
    ensures u.status[k].verdict == if Decides(step, k) then step.verdict
                                   else if step == Resumes(k) && Resumable(t.status[k]) then NoVerdict
                                   else t.status[k].verdict
  {
  }

  lemma {:induction false} AwaitsRun(ts: seq<Records>, steps: seq<Step>, k: string, judge: nat, n: nat)
    requires Trace(ts, steps) && ClaimsValid(ts[0]) && Awaits(ts[0], k, judge) && n < |ts|
    requires forall i :: 0 <= i < n ==> steps[i] != LetsGo(k, judge)
    ensures Awaits(ts[n], k, judge)
    ensures ts[0].status[k].verdict == NoVerdict && (forall i :: 0 <= i < n ==> !Decides(steps[i], k)) ==>
              ts[n].status[k].verdict == NoVerdict
  {
    hide ClaimsValid, Moves, Resumable;
    if n > 0 {
      AwaitsRun(ts, steps, k, judge, n - 1);
      TraceKeeps(ts, steps, n - 1);
      AwaitsKeeps(ts[n - 1], steps[n - 1], ts[n], k, judge);
    }
  }

  /**
   A resumption that finds a judge running waits for it: when that judge lets go, the next
   claim of the key is granted if and only if no verdict stands for it, and none does unless
   one was recorded after the resumption.
   */
  lemma ResumedClaims(ts: seq<Records>, steps: seq<Step>, k: string, judge: nat, startsAt: int, u: Records)
    requires Trace(ts, steps) && ClaimsValid(ts[0]) && |steps| >= 2 && steps[0] == Resumes(k)
    requires (k, judge) in ts[0].running && k in ts[0].status && Resumable(ts[0].status[k])
    requires steps[|steps| - 1] == LetsGo(k, judge) && forall i :: 0 <= i < |steps| - 1 ==> steps[i] != LetsGo(k, judge)
    requires Moves(ts[|steps|], Claims(k, startsAt), u)
    ensures var n := |steps| - 1;
            && Awaits(ts[n], k, judge)
            && (u.running != ts[n + 1].running <==> ts[n].status[k].verdict == NoVerdict)
            && ((forall i :: 1 <= i < n ==> !Decides(steps[i], k)) ==> ts[n].status[k].verdict == NoVerdict)
  {
    var n := |steps| - 1;
    MovesKeep(ts[0], steps[0], ts[1]);
    assert ts[1].status[k].verdict == NoVerdict && Awaits(ts[1], k, judge);
    var us, rest := ts[1..], steps[1..];
    forall i | 0 <= i < |rest|
      ensures Moves(us[i], rest[i], us[i + 1])
    {
      assert Moves(ts[i + 1], steps[i + 1], ts[i + 2]);
    }
    AwaitsRun(us, rest, k, judge, n - 1);
    TraceKeeps(ts, steps, n);
    LetGoClaims(ts[n], ts[n + 1], u, k, judge, startsAt);
  }

  lemma LetGoClaims(t: Records, u: Records, v: Records, k: string, judge: nat, startsAt: int)
    requires ClaimsValid(t) && (k, judge) in t.running && k in t.status
    requires Moves(t, LetsGo(k, judge), u) && Moves(u, Claims(k, startsAt), v)
    ensures v.running != u.running <==> t.status[k].verdict == NoVerdict
  {
    if t.status[k].verdict == NoVerdict {
      MovesKeep(t, LetsGo(k, judge), u);
      assert (k, u.nextJudge) in v.running && (k, u.nextJudge) !in u.running;
    }
  }

  // ---- in place ----

  class Table {
    var status: map<string, Status>
    var nextJudge: nat
    ghost var running: set<(string, nat)> // judges between claim and release

    ghost function View(): Records
      reads this
    {
      Records(status, nextJudge, running)
    }

    ghost predicate Valid()
      reads this
    {
      ClaimsValid(View())
    }

    constructor ()
      ensures Valid() && View() == NO_RECORDS
    {
      status, nextJudge, running := map[], 1, {};
    }

    /** Granted only when the key has no record, running or judged. */
    method Claim(k: string, startsAt: int) returns (judge: nat)
      requires Valid()
      modifies this
      ensures Valid() && Moves(old(View()), Claims(k, startsAt), View())
      ensures judge > 0 <==> k !in old(status)
      ensures judge > 0 ==> (forall j :: (k, j) !in old(running)) && (k, judge) in running
      ensures judge > 0 ==> k in status && status[k] == Status(judge, startsAt, false, NoVerdict, "", false, false, false, "", "", false, 0, false)
    {
      if k in status {
        return 0;
      }
      judge := nextJudge;
      nextJudge := nextJudge + 1;
      status := status[k := BLANK.(judge := judge, startsAt := startsAt)];
      running := running + {(k, judge)};
      Prune(k);
    }

    /** Forgets records of no running judge while there are too many. */
    method Prune(keep: string)
      requires Valid()
      modifies `status
      ensures Valid() && Pruned(old(status), status, keep)
      ensures |old(status)| <= 4096 ==> status == old(status)
      ensures |status| <= 4096 || forall k :: k in status && k != keep ==> status[k].judge != 0
    {
      ghost var was := status;
      while |status| > MAX_VERDICTS
        invariant Valid() && (status != was ==> |status| >= MAX_VERDICTS && |was| > MAX_VERDICTS)
        invariant forall k :: k in status ==> k in was && status[k] == was[k]
        invariant forall k :: k in was && k !in status ==> k != keep && was[k].judge == 0
        decreases |status|
      {
        var found, k := Idle(keep);
        if !found {
          return;
        }
        assert status == (status - {k})[k := status[k]];
        status := status - {k};
      }
    }

    method Idle(keep: string) returns (found: bool, key: string)
      ensures found ==> key in status && key != keep && status[key].judge == 0
      ensures !found ==> forall k :: k in status && k != keep ==> status[k].judge != 0
    {
      found, key := false, "";
      var rest := status.Keys;
      while rest != {}
        invariant rest <= status.Keys
        invariant forall k :: k in status && k !in rest && k != keep ==> status[k].judge != 0
      {
        var k :| k in rest;
        if k != keep && status[k].judge == 0 {
          return true, k;
        }
        rest := rest - {k};
      }
    }

    /** A judge lets go of its key: a verdict keeps the record, anything else frees the key. */
    method Release(k: string, ghost judge: nat) returns (recheck: bool)
      requires Valid() && (k, judge) in running
      modifies this
      ensures Valid() && Moves(old(View()), LetsGo(k, judge), View())
      ensures recheck == old(status)[k].recheck
      ensures k in status <==> old(status)[k].verdict != NoVerdict
      ensures k in status ==> var was := old(status)[k];
                status[k] == Status(0, was.startsAt, was.checking, was.verdict, was.reasoning, was.fromRule, was.inFlight,
                                    was.succeeded, was.expected, was.observed, was.capturing, was.resolvedAt, false)
    {
      var st := status[k];
      recheck := st.recheck;
      status := status[k := st.(judge := 0, recheck := false)];
      running := running - {(k, judge)};
      if st.verdict == NoVerdict {
        status := status - {k};
      } else {
        Prune(k);
      }
    }

    /** Any change to a record that does not touch its judge; a missing one is created. */
    method Update(k: string, st: Status)
      requires Valid() && st.judge == (if k in status then status[k].judge else 0)
      modifies `status
      ensures Valid() && status == old(status)[k := st]
    {
      status := status[k := st];
    }

    method Get(k: string) returns (st: Status)
      ensures st == if k in status then status[k] else BLANK
    {
      st := if k in status then status[k] else BLANK;
    }

    /** The verdict outlives the judge; a record is created when there is none. */
    method Record(k: string, verdict: Verdict, reasoning: string, fromRule: bool)
      requires Valid()
      modifies `status
      ensures Valid() && Moves(old(View()), Judges(k, verdict, reasoning, fromRule), View())
      ensures var was := if k in old(status) then old(status)[k] else BLANK;
              k in status && status[k] == Status(was.judge, was.startsAt, was.checking, verdict, reasoning, fromRule, was.inFlight,
                                                 was.succeeded, was.expected, was.observed, was.capturing, was.resolvedAt, was.recheck)
    {
      var st := Get(k);
      Update(k, st.(verdict := verdict, reasoning := reasoning, fromRule := fromRule));
      Prune(k);
    }

    method BeginResponse(k: string, expected: string)
      requires Valid()
      modifies `status
      ensures Valid() && Moves(old(View()), Begins(k, expected), View())
      ensures k in status && status[k].inFlight && !status[k].succeeded && status[k].expected == expected
      ensures k !in old(status) ==> status[k].judge == 0 && status[k].verdict == NoVerdict && status[k].observed == ""
    {
      var st := Get(k);
      Update(k, st.(inFlight := true, succeeded := false, expected := expected));
    }

    /** The reply sent is ours unless another was observed meanwhile. */
    method FinishResponse(k: string, succeeded: bool) returns (ours: bool)
      requires Valid()
      modifies `status
      ensures Valid() && Moves(old(View()), Ends(k, succeeded), View())
      ensures ours == (k in old(status) && succeeded && (old(status)[k].observed == "" || old(status)[k].observed == old(status)[k].expected))
      ensures if k in old(status)
              then status == old(status)[k := old(status)[k].(inFlight := false, succeeded := ours, observed := "")]
              else status == old(status)
    {
      if k !in status {
        return false;
      }
      var st := Get(k);
      ours := succeeded && (st.observed == "" || st.observed == st.expected);
      Update(k, st.(inFlight := false, succeeded := ours, observed := ""));
    }

    /** The end of a user's reply capture forgets the record only if nothing else uses it. */
    method FinishCapture(k: string)
      requires Valid()
      modifies `status
      ensures Valid() && Moves(old(View()), Captured(k), View())
      ensures k in status <==>
                k in old(status)
                && var was := old(status)[k];
                   || was.judge != 0 || was.startsAt != 0 || was.checking || was.verdict != NoVerdict || was.reasoning != ""
                   || was.inFlight || was.succeeded || was.observed != ""
      ensures forall j :: j in old(status) && j != k ==> j in status && status[j] == old(status)[j]
      ensures k in status ==> status[k] == old(status)[k].(capturing := false)
    {
      if k !in status {
        return;
      }
      var st := status[k].(capturing := false);
      if Unused(st) {
        status := status - {k};
      } else {
        Update(k, st);
      }
    }

    /**
     A prompt a removed rule answered goes back to approval: at once when no judge runs,
     else when the running one lets go.
     */
    method Resume(k: string) returns (start: bool)
      requires Valid()
      modifies `status
      ensures Valid() && Moves(old(View()), Resumes(k), View())
      ensures start <==> k in old(status) && Resumable(old(status)[k]) && forall j :: (k, j) !in running
      ensures start ==> k !in status
      ensures var was := if k in old(status) then old(status)[k] else BLANK;
              var free := k in old(status) && was.fromRule && was.resolvedAt <= 0 && !was.inFlight && !was.succeeded;
              && start == (free && was.judge == 0)
              && status == if !free then old(status) else if was.judge == 0 then old(status) - {k}
                           else old(status)[k := was.(verdict := NoVerdict, recheck := true)]
    {
      if k !in status || !Resumable(status[k]) {
        return false;
      }
      var st := status[k].(verdict := NoVerdict);
      if st.judge != 0 {
        assert (k, st.judge) in running;
        Update(k, st.(recheck := true));
        return false;
      }
      status := status - {k};
      start := true;
    }
  }
}

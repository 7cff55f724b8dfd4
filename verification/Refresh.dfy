/**
 Explicit reads of one source: tickets taken by requests, receipts published by source
 reads and by checks that a session is gone, and the waiters they wake.
 */
module Refresh {
  import opened Arithmetic

  function At(m: map<string, nat>, id: string): nat { if id in m then m[id] else 0 }

  /**
   What a source read covers: the whole session, or the messages a change named. A change
   is read by its names only if no explicit read was pending when it was `looked` at, with
   `seen` the newest ticket then.
   */
  datatype Scope = Whole | Named(looked: nat, seen: nat)

  /** An approved read found its version stored already and stored nothing itself. */
  datatype Progress = Looked | Reading | Stored | Approved

  /** A source read under the ticket it captured before it began. */
  datatype Read = Read(id: string, ticket: nat, began: nat, scope: Scope, progress: Progress)

  /** What shows a session gone: a complete inventory, or a deletion the source reported. */
  datatype Sign = Inventory | Deletion(reported: nat)

  /** A check and the tickets captured before it. */
  datatype Check = Check(tickets: map<string, nat>, began: nat, sign: Sign)

  /** A session found gone, and the newest ticket that answers. */
  datatype Absence = Absence(id: string, ticket: nat, began: nat, sign: Sign)

  /** When the source was seen without the session. */
  function Evidence(a: Absence): nat { if a.sign.Inventory? then a.began else a.sign.reported }

  datatype Outcome = Validated | Missing

  /** What a request is doing: about to look, holding the channel it looked under, or done. */
  datatype Waiter =
    | Looking(id: string, ticket: nat)
    | Holding(id: string, ticket: nat, channel: nat)
    | Blocked(id: string, ticket: nat, channel: nat)
    | Returned(id: string, ticket: nat, outcome: Outcome)

  /** `now` counts steps; `asked` says when each ticket was issued. */
  datatype Book = Book(
    requests: map<string, nat>,
    validated: map<string, nat>,
    missing: map<string, nat>,
    channel: nat,              // the channel handed out, while open
    open: bool,
    waiters: map<nat, Waiter>,
    work: map<nat, Read>,
    checks: map<nat, Check>,
    reports: set<(string, nat)>, // deletions the source reported, and when, until applied
    now: nat,
    asked: map<(string, nat), nat>,
    commits: set<Read>,        // source reads that were stored or approved
    absences: set<Absence>)

  const EMPTY: Book := Book(map[], map[], map[], 0, false, map[], map[], map[], {}, 0, map[], {}, {})

  datatype Step =
    | Request(waiter: nat, id: string)
    | BeginRead(read: nat, id: string)
    | LookPending(read: nat, id: string)
    | BeginNamed(read: nat)
    | StoreRead(read: nat)
    | ApproveRead(read: nat)
    | PublishRead(read: nat)
    | FailRead(read: nat)
    | BeginCheck(check: nat)
    | Report(id: string)
    | BeginDeletion(check: nat, id: string, reported: nat)
    | PublishAbsent(check: nat, id: string)
    | EndCheck(check: nat)
    | TakeChannel(waiter: nat)
    | Look(waiter: nat)
    | Wake(waiter: nat)
    | Cancel(waiter: nat)

  // ---- the operations on the receipts ----

  function NextTicket(b: Book, id: string): Book {
    var t := At(b.requests, id) + 1;
    b.(requests := b.requests[id := t], asked := b.asked[(id, t) := b.now])
  }

  /** A receipt only moves forward, and a ticket that was never issued moves none. */
  function Raised(m: map<string, nat>, id: string, ticket: nat): map<string, nat> {
    if ticket > 0 then m[id := Max(At(m, id), ticket)] else m
  }

  /** Publishing closes the channel handed out. */
  function PublishReceipt(b: Book, id: string, ticket: nat): Book {
    b.(validated := Raised(b.validated, id, ticket), open := false)
  }

  function PublishMissing(b: Book, id: string, ticket: nat): Book {
    b.(missing := Raised(b.missing, id, ticket), open := false)
  }

  /** The open channel, a new one when the last was closed. */
  function ReceiptChanges(b: Book): Book { if b.open then b else b.(open := true, channel := b.channel + 1) }

  predicate Satisfied(b: Book, id: string, ticket: nat) {
    At(b.missing, id) >= ticket || At(b.validated, id) >= ticket
  }

  predicate ExplicitReadPending(b: Book, id: string) {
    At(b.requests, id) > Max(At(b.validated, id), At(b.missing, id))
  }

  function LookAgain(b: Book, w: nat): Book
    requires w in b.waiters && b.waiters[w].Holding?
  {
    var x := b.waiters[w];
    b.(waiters := b.waiters[w :=
         if At(b.missing, x.id) >= x.ticket then Returned(x.id, x.ticket, Missing)
         else if At(b.validated, x.id) >= x.ticket then Returned(x.id, x.ticket, Validated)
         else Blocked(x.id, x.ticket, x.channel)])
  }

  /** A channel handed out and closed since. */
  predicate Closed(b: Book, channel: nat) { channel < b.channel || (channel == b.channel && !b.open) }

  // ---- the steps ----

  function Tick(b: Book): Book { b.(now := b.now + 1) }

  function Requested(b: Book, w: nat, id: string): Book {
    if w in b.waiters then b
    else var x := NextTicket(b, id); x.(waiters := x.waiters[w := Looking(id, At(x.requests, id))])
  }

  /** The read begins under the ticket captured now. */
  function Began(b: Book, id: string, scope: Scope): Read { Read(id, At(b.requests, id), b.now, scope, Reading) }

  /** A named read needs no explicit read pending, and only such a read can be approved without storing. */
  predicate MayRead(b: Book, s: Step) {
    match s
    case BeginRead(r, id) => r !in b.work
    case LookPending(r, id) => r !in b.work && !ExplicitReadPending(b, id)
    case BeginNamed(r) => r in b.work && b.work[r].progress == Looked
    case StoreRead(r) => r in b.work && b.work[r].progress == Reading
    case ApproveRead(r) => r in b.work && b.work[r].progress == Reading && b.work[r].scope.Named?
    case _ => false
  }

  /** What a step makes of its read. */
  function NextRead(b: Book, s: Step): Read
    requires MayRead(b, s)
  {
    if s.BeginRead? then Began(b, s.id, Whole)
    else if s.LookPending? then Read(s.id, 0, 0, Named(b.now, At(b.requests, s.id)), Looked)
    else if s.BeginNamed? then Began(b, b.work[s.read].id, b.work[s.read].scope)
    else b.work[s.read].(progress := if s.StoreRead? then Stored else Approved)
  }

  predicate Finished(r: Read) { r.progress.Stored? || r.progress.Approved? }

  function ReadStepped(b: Book, s: Step): Book {
    if !MayRead(b, s) then b
    else
      var x := NextRead(b, s);
      b.(work := b.work[s.read := x], commits := if Finished(x) then b.commits + {x} else b.commits)
  }

  function ReadPublished(b: Book, r: nat): Book {
    if r !in b.work || !Finished(b.work[r]) then b
    else PublishReceipt(b, b.work[r].id, b.work[r].ticket).(work := b.work - {r})
  }

  /** An inventory answers the tickets of every session, an applied deletion those of its own. */
  function Captured(b: Book, s: Step): map<string, nat>
    requires s.BeginCheck? || s.BeginDeletion?
  {
    if s.BeginCheck? then b.requests else map[s.id := At(b.requests, s.id)]
  }

  function Checking(b: Book, s: Step): Book
    requires s.BeginCheck? || s.BeginDeletion?
  {
    if s.check in b.checks || (s.BeginDeletion? && (s.id, s.reported) !in b.reports) then b
    else b.(checks := b.checks[s.check := Check(Captured(b, s), b.now, if s.BeginCheck? then Inventory else Deletion(s.reported))])
  }

  function AbsenceOf(c: Check, id: string): Absence { Absence(id, At(c.tickets, id), c.began, c.sign) }

  function AbsentPublished(b: Book, c: nat, id: string): Book {
    if c !in b.checks then b
    else
      PublishMissing(b, id, At(b.checks[c].tickets, id)).(
        absences := b.absences + {AbsenceOf(b.checks[c], id)},
        reports := if b.checks[c].sign.Deletion? then b.reports - {(id, b.checks[c].sign.reported)} else b.reports)
  }

  function Held(b: Book, w: nat): Book {
    if w !in b.waiters || !b.waiters[w].Looking? then b
    else
      var x := ReceiptChanges(b);
      x.(waiters := x.waiters[w := Holding(b.waiters[w].id, b.waiters[w].ticket, x.channel)])
  }

  function LookedAgain(b: Book, w: nat): Book { if w in b.waiters && b.waiters[w].Holding? then LookAgain(b, w) else b }

  function Woken(b: Book, w: nat): Book {
    if w in b.waiters && b.waiters[w].Blocked? && Closed(b, b.waiters[w].channel)
    then b.(waiters := b.waiters[w := Looking(b.waiters[w].id, b.waiters[w].ticket)]) else b
  }

  function Act(b: Book, s: Step): Book {
    match s
    case Request(w, id) => Requested(b, w, id)
    case PublishRead(r) => ReadPublished(b, r)
    case FailRead(r) => b.(work := b.work - {r})
    case BeginCheck(_) => Checking(b, s)
    case Report(id) => b.(reports := b.reports + {(id, b.now)})
    case BeginDeletion(_, _, _) => Checking(b, s)
    case PublishAbsent(c, id) => AbsentPublished(b, c, id)
    case EndCheck(c) => b.(checks := b.checks - {c})
    case TakeChannel(w) => Held(b, w)
    case Look(w) => LookedAgain(b, w)
    case Wake(w) => Woken(b, w)
    case Cancel(w) => b.(waiters := b.waiters - {w})
    case _ => ReadStepped(b, s)
  }

  function Do(b: Book, s: Step): Book { Tick(Act(b, s)) }

  function Run(b: Book, steps: seq<Step>): Book
    decreases |steps|
  {
    if steps == [] then b else Run(Do(b, steps[0]), steps[1..])
  }

  // ---- what every step keeps ----

  /** Tickets of a session were issued one after the other. */
  ghost predicate AskedInOrder(requests: map<string, nat>, asked: map<(string, nat), nat>, now: nat) {
    && (forall id, t :: (id, t) in asked <==> 0 < t <= At(requests, id))
    && (forall id, t, u :: (id, t) in asked && (id, u) in asked && t <= u ==> asked[(id, t)] <= asked[(id, u)])
    && (forall k :: k in asked ==> asked[k] < now)
  }

  /** Work began after the ticket it captured, and every earlier one, was issued. */
  ghost predicate After(asked: map<(string, nat), nat>, id: string, ticket: nat, began: nat) {
    && (ticket > 0 ==> (id, ticket) in asked)
    && forall t :: (id, t) in asked && t <= ticket ==> asked[(id, t)] <= began
  }

  /**
   A source read that answers the ticket: it began after the ticket was issued, and one of
   named messages was looked at before.
   */
  predicate Answers(r: Read, asked: map<(string, nat), nat>, id: string, t: nat)
    requires (id, t) in asked
  {
    && Finished(r) && r.id == id && t <= r.ticket && asked[(id, t)] <= r.began
    && (if r.scope.Whole? then r.progress == Stored else r.scope.looked < asked[(id, t)])
  }

  ghost predicate HasRead(commits: set<Read>, asked: map<(string, nat), nat>, id: string, t: nat)
    requires (id, t) in asked
  {
    exists r :: r in commits && Answers(r, asked, id, t)
  }

  /** A check that answers the ticket with an absence. */
  predicate Denies(a: Absence, asked: map<(string, nat), nat>, id: string, t: nat)
    requires (id, t) in asked
  {
    a.id == id && t <= a.ticket && asked[(id, t)] <= a.began
  }

  ghost predicate HasCheck(absences: set<Absence>, asked: map<(string, nat), nat>, id: string, t: nat)
    requires (id, t) in asked
  {
    exists a :: a in absences && Denies(a, asked, id, t)
  }

  /** No explicit read was pending when a named read was looked at, so a ticket it answers alone came later. */
  ghost predicate ScopeValid(r: Read, asked: map<(string, nat), nat>, validated: map<string, nat>, missing: map<string, nat>, now: nat) {
    r.scope.Named? ==>
      && r.scope.looked < now && r.scope.seen <= Max(At(validated, r.id), At(missing, r.id))
      && forall t :: (r.id, t) in asked && r.scope.seen < t ==> r.scope.looked < asked[(r.id, t)]
  }

  ghost predicate ReadValid(r: Read, commits: set<Read>, asked: map<(string, nat), nat>, validated: map<string, nat>,
                            missing: map<string, nat>, now: nat) {
    && ScopeValid(r, asked, validated, missing, now)
    && (r.progress != Looked ==> After(asked, r.id, r.ticket, r.began))
    && (Finished(r) ==> r in commits) && (r.progress == Approved ==> r.scope.Named?)
  }

  ghost predicate WorkValid(b: Book) {
    forall r :: r in b.work ==> ReadValid(b.work[r], b.commits, b.asked, b.validated, b.missing, b.now)
  }

  ghost predicate ChecksValid(checks: map<nat, Check>, asked: map<(string, nat), nat>) {
    forall c, id :: c in checks ==> After(asked, id, At(checks[c].tickets, id), checks[c].began)
  }

  /** Every answered ticket has its answer. */
  ghost predicate Answered(b: Book, id: string, t: nat)
    requires (id, t) in b.asked
  {
    && (t <= At(b.missing, id) ==> HasCheck(b.absences, b.asked, id, t))
    && (At(b.missing, id) < t <= At(b.validated, id) ==> HasRead(b.commits, b.asked, id, t))
  }

  ghost predicate AllAnswered(b: Book) { forall id, t :: (id, t) in b.asked ==> Answered(b, id, t) }

  /** Receipts name issued tickets. */
  ghost predicate Issued(b: Book) {
    forall id :: At(b.validated, id) <= At(b.requests, id) && At(b.missing, id) <= At(b.requests, id)
  }

  ghost predicate WaiterValid(b: Book, x: Waiter) {
    && 0 < x.ticket && (x.id, x.ticket) in b.asked
    && (x.Returned? ==> if x.outcome == Validated then HasRead(b.commits, b.asked, x.id, x.ticket)
                        else HasCheck(b.absences, b.asked, x.id, x.ticket))
    && (x.Holding? || x.Blocked? ==> x.channel <= b.channel)
    && (x.Blocked? && !Closed(b, x.channel) ==> !Satisfied(b, x.id, x.ticket))
  }

  ghost predicate Waiters(b: Book) { forall w :: w in b.waiters ==> WaiterValid(b, b.waiters[w]) }

  ghost predicate Inv(b: Book) {
    && AskedInOrder(b.requests, b.asked, b.now)
    && WorkValid(b) && ChecksValid(b.checks, b.asked) && AllAnswered(b) && Issued(b)
    && Waiters(b)
  }

  /** Nothing a step adds takes an answer away. */
  ghost predicate Grows(b: Book, x: Book) {
    && b.commits <= x.commits && b.absences <= x.absences && b.now <= x.now
    && (forall k :: k in b.asked ==> k in x.asked && x.asked[k] == b.asked[k])
    && (forall k :: k in x.asked && k !in b.asked ==> b.now <= x.asked[k])
    && (forall id, t :: (id, t) in x.asked && (id, t) !in b.asked ==> t > At(b.requests, id))
    && (forall id :: At(b.validated, id) <= At(x.validated, id) && At(b.missing, id) <= At(x.missing, id))
  }

  /** Channels only close, and new receipts close them all. */
  ghost predicate Wakes(b: Book, x: Book) {
    && b.channel <= x.channel
    && (forall c: nat :: c <= b.channel && Closed(b, c) ==> Closed(x, c))
    && ((x.validated == b.validated && x.missing == b.missing) || forall c: nat :: c <= b.channel ==> Closed(x, c))
  }

  lemma AnswersGrow(b: Book, x: Book, id: string, t: nat)
    requires Grows(b, x) && (id, t) in b.asked
    ensures HasRead(b.commits, b.asked, id, t) ==> HasRead(x.commits, x.asked, id, t)
    ensures HasCheck(b.absences, b.asked, id, t) ==> HasCheck(x.absences, x.asked, id, t)
  {
    if HasRead(b.commits, b.asked, id, t) {
      var r :| r in b.commits && Answers(r, b.asked, id, t);
      assert Answers(r, x.asked, id, t);
    }
    if HasCheck(b.absences, b.asked, id, t) {
      var a :| a in b.absences && Denies(a, b.asked, id, t);
      assert Denies(a, x.asked, id, t);
    }
  }

  lemma AfterGrows(b: Book, x: Book, id: string, ticket: nat, began: nat)
    requires Grows(b, x) && AskedInOrder(b.requests, b.asked, b.now) && After(b.asked, id, ticket, began)
    ensures After(x.asked, id, ticket, began)
  {
    forall t | (id, t) in x.asked && t <= ticket
      ensures x.asked[(id, t)] <= began
    {
      assert (id, t) !in b.asked ==> t > At(b.requests, id);
      assert ticket <= At(b.requests, id);
    }
  }

  /** A read that does nothing stays valid. */
  lemma ReadGrows(b: Book, x: Book, r: Read)
    requires Grows(b, x) && AskedInOrder(b.requests, b.asked, b.now)
    requires ReadValid(r, b.commits, b.asked, b.validated, b.missing, b.now)
    ensures ReadValid(r, x.commits, x.asked, x.validated, x.missing, x.now)
  {
    if r.progress != Looked {
      AfterGrows(b, x, r.id, r.ticket, r.began);
    }
    hide After, AskedInOrder, At;
    assert At(b.validated, r.id) <= At(x.validated, r.id) && At(b.missing, r.id) <= At(x.missing, r.id);
    if r.scope.Named? {
      forall t | (r.id, t) in x.asked && r.scope.seen < t
        ensures r.scope.looked < x.asked[(r.id, t)]
      {
        if (r.id, t) in b.asked {
          assert x.asked[(r.id, t)] == b.asked[(r.id, t)];
        }
      }
    }
  }

  /** Where every read is an old one or valid, the work is. */
  lemma WorkGrows(b: Book, x: Book)
    requires Grows(b, x) && AskedInOrder(b.requests, b.asked, b.now) && WorkValid(b)
    requires forall r :: r in x.work ==>
               (r in b.work && b.work[r] == x.work[r])
               || ReadValid(x.work[r], x.commits, x.asked, x.validated, x.missing, x.now)
    ensures WorkValid(x)
  {
    hide ReadValid, Grows, AskedInOrder;
    forall r | r in x.work
      ensures ReadValid(x.work[r], x.commits, x.asked, x.validated, x.missing, x.now)
    {
      if r in b.work && b.work[r] == x.work[r] {
        ReadGrows(b, x, x.work[r]);
      }
    }
  }

  lemma ChecksGrow(b: Book, x: Book)
    requires Grows(b, x) && AskedInOrder(b.requests, b.asked, b.now) && ChecksValid(b.checks, b.asked)
    requires forall c :: c in x.checks ==>
               (c in b.checks && b.checks[c] == x.checks[c])
               || forall id :: After(x.asked, id, At(x.checks[c].tickets, id), x.checks[c].began)
    ensures ChecksValid(x.checks, x.asked)
  {
    hide After, Grows, AskedInOrder, At;
    forall c, id | c in x.checks
      ensures After(x.asked, id, At(x.checks[c].tickets, id), x.checks[c].began)
    {
      if c in b.checks && b.checks[c] == x.checks[c] {
        AfterGrows(b, x, id, At(x.checks[c].tickets, id), x.checks[c].began);
      }
    }
  }

  /** Receipts that did not move still have their answers. */
  lemma AnsweredGrows(b: Book, x: Book)
    requires Grows(b, x) && AllAnswered(b) && Issued(b) && x.validated == b.validated && x.missing == b.missing
    ensures AllAnswered(x)
  {
    hide HasRead, HasCheck, At;
    forall id, t | (id, t) in x.asked
      ensures Answered(x, id, t)
    {
      if (id, t) in b.asked {
        assert Answered(b, id, t);
        AnswersGrow(b, x, id, t);
      } else {
        assert t > At(b.requests, id);
      }
    }
  }

  /** A waiter that does nothing keeps what it knows while no channel is reopened behind it. */
  lemma WaiterGrows(b: Book, x: Book, w: Waiter)
    requires Grows(b, x) && Wakes(b, x) && WaiterValid(b, w)
    ensures WaiterValid(x, w)
  {
    AnswersGrow(b, x, w.id, w.ticket);
    hide HasRead, HasCheck;
  }

  lemma WaitersGrow(b: Book, x: Book)
    requires Grows(b, x) && Wakes(b, x) && Waiters(b)
    requires forall v :: v in x.waiters ==> (v in b.waiters && b.waiters[v] == x.waiters[v]) || WaiterValid(x, x.waiters[v])
    ensures Waiters(x)
  {
    hide WaiterValid, Grows, Wakes;
    forall v | v in x.waiters
      ensures WaiterValid(x, x.waiters[v])
    {
      if v in b.waiters && b.waiters[v] == x.waiters[v] {
        WaiterGrows(b, x, b.waiters[v]);
      }
    }
  }

  // ---- step by step ----

  lemma AskedNext(requests: map<string, nat>, asked: map<(string, nat), nat>, now: nat, id: string)
    requires AskedInOrder(requests, asked, now)
    ensures var t := At(requests, id) + 1;
            AskedInOrder(requests[id := t], asked[(id, t) := now], now + 1) && (id, t) !in asked
  {
    var t := At(requests, id) + 1;
    var more := asked[(id, t) := now];
    assert (id, t) !in asked;
    forall i, u
      ensures (i, u) in more <==> 0 < u <= At(requests[id := t], i)
    {
    }
  }

  lemma AskedSame(requests: map<string, nat>, asked: map<(string, nat), nat>, now: nat)
    requires AskedInOrder(requests, asked, now)
    ensures AskedInOrder(requests, asked, now + 1)
  {
  }

  /** Whatever ticket is captured now was issued by now. */
  lemma CapturedAfter(b: Book, id: string)
    requires AskedInOrder(b.requests, b.asked, b.now)
    ensures After(b.asked, id, At(b.requests, id), b.now)
  {
  }

  lemma RequestKeeps(b: Book, w: nat, id: string)
    requires Inv(b)
    ensures Inv(Tick(Requested(b, w, id)))
  {
    if w in b.waiters {
      QuietKeeps(b);
    } else {
      RequestMoves(b, w, id);
    }
  }

  lemma RequestMoves(b: Book, w: nat, id: string)
    requires Inv(b) && w !in b.waiters
    ensures Inv(Tick(Requested(b, w, id)))
  {
    hide AskedInOrder, WorkValid, ChecksValid, AllAnswered, Waiters, WaiterValid, Closed;
    var x := Tick(Requested(b, w, id));
    AskedNext(b.requests, b.asked, b.now, id);
    RequestGrows(b, w, id);
    hide Grows, Wakes, At;
    WorkGrows(b, x);
    ChecksGrow(b, x);
    AnsweredGrows(b, x);
    NewWaiter(b, w, id);
    WaitersGrow(b, x);
  }

  lemma RequestGrows(b: Book, w: nat, id: string)
    requires AskedInOrder(b.requests, b.asked, b.now) && Issued(b) && w !in b.waiters
    ensures var x := Tick(Requested(b, w, id)); Grows(b, x) && Wakes(b, x) && Issued(x)
  {
    AskedNext(b.requests, b.asked, b.now, id);
    hide AskedInOrder;
  }

  lemma NewWaiter(b: Book, w: nat, id: string)
    requires w !in b.waiters
    ensures var x := Tick(Requested(b, w, id)); w in x.waiters && WaiterValid(x, x.waiters[w])
  {
  }

  /** A step that moves no receipt and issues no ticket. */
  lemma Steady(b: Book, x: Book)
    requires Inv(b) && Grows(b, x) && Wakes(b, x)
    requires x.requests == b.requests && x.asked == b.asked && x.now == b.now + 1
    requires x.validated == b.validated && x.missing == b.missing
    requires WorkValid(x) && ChecksValid(x.checks, x.asked) && Waiters(x)
    ensures Inv(x)
  {
    hide WorkValid, ChecksValid, Waiters, Grows, Wakes, AllAnswered;
    AskedSame(b.requests, b.asked, b.now);
    AnsweredGrows(b, x);
  }

  lemma QuietKeeps(b: Book)
    requires Inv(b)
    ensures Inv(Tick(b))
  {
    hide AllAnswered, Issued, AskedInOrder, ReadValid, WaiterValid, After;
    var x := Tick(b);
    WorkGrows(b, x);
    ChecksGrow(b, x);
    WaitersGrow(b, x);
    Steady(b, x);
  }

  lemma ReportKeeps(b: Book, id: string)
    requires Inv(b)
    ensures Inv(Tick(b.(reports := b.reports + {(id, b.now)})))
  {
    hide AllAnswered, Issued, AskedInOrder, ReadValid, WaiterValid, After;
    var x := Tick(b.(reports := b.reports + {(id, b.now)}));
    WorkGrows(b, x);
    ChecksGrow(b, x);
    WaitersGrow(b, x);
    Steady(b, x);
  }

  /** Reads, checks and waiters that end take nothing with them. */
  lemma EndedKeeps(b: Book, r: nat, c: nat, w: nat)
    requires Inv(b)
    ensures Inv(Tick(b.(work := b.work - {r})))
    ensures Inv(Tick(b.(checks := b.checks - {c})))
    ensures Inv(Tick(b.(waiters := b.waiters - {w})))
  {
    hide AllAnswered, Issued, AskedInOrder, ReadValid, WaiterValid, After;
    QuietKeeps(b);
    var x, y, z := Tick(b.(work := b.work - {r})), Tick(b.(checks := b.checks - {c})), Tick(b.(waiters := b.waiters - {w}));
    WorkGrows(b, x);
    WaitersGrow(b, x);
    Steady(b, x);
    ChecksGrow(b, y);
    WaitersGrow(b, y);
    Steady(b, y);
    WaitersGrow(b, z);
    Steady(b, z);
  }

  lemma NextReadValid(b: Book, s: Step)
    requires AskedInOrder(b.requests, b.asked, b.now) && WorkValid(b) && MayRead(b, s)
    ensures var x := Tick(ReadStepped(b, s));
            Grows(b, x) && Wakes(b, x) && ReadValid(NextRead(b, s), x.commits, x.asked, x.validated, x.missing, x.now)
  {
    var x, r := Tick(ReadStepped(b, s)), NextRead(b, s);
    CapturedAfter(b, r.id);
    if s.BeginNamed? || s.StoreRead? || s.ApproveRead? {
      ReadGrows(b, x, b.work[s.read]);
    } else if s.LookPending? {
      assert forall t :: (s.id, t) in b.asked ==> t <= At(b.requests, s.id);
    }
    hide AskedInOrder, After;
  }

  lemma ReadSteppedKeeps(b: Book, s: Step)
    requires Inv(b)
    ensures Inv(Tick(ReadStepped(b, s)))
  {
    hide AllAnswered, Issued, AskedInOrder, ReadValid, WaiterValid, After, NextRead, Grows, Wakes;
    QuietKeeps(b);
    if MayRead(b, s) {
      var x := Tick(ReadStepped(b, s));
      NextReadValid(b, s);
      WorkGrows(b, x);
      ChecksGrow(b, x);
      WaitersGrow(b, x);
      Steady(b, x);
    }
  }

  lemma CheckingKeeps(b: Book, s: Step)
    requires Inv(b) && (s.BeginCheck? || s.BeginDeletion?)
    ensures Inv(Tick(Checking(b, s)))
  {
    hide AllAnswered, Issued, AskedInOrder, ReadValid, WaiterValid, After, At, Captured;
    QuietKeeps(b);
    if Checking(b, s) != b {
      var x := Tick(Checking(b, s));
      forall id
        ensures After(b.asked, id, At(Captured(b, s), id), b.now)
      {
        CapturedAfter(b, id);
        CapturedTicket(b, s, id);
        NoneAfter(b, id);
      }
      ChecksGrow(b, x);
      WorkGrows(b, x);
      WaitersGrow(b, x);
      Steady(b, x);
    }
  }

  lemma CapturedTicket(b: Book, s: Step, id: string)
    requires s.BeginCheck? || s.BeginDeletion?
    ensures At(Captured(b, s), id) == At(b.requests, id) || At(Captured(b, s), id) == 0
  {
  }

  lemma NoneAfter(b: Book, id: string)
    requires AskedInOrder(b.requests, b.asked, b.now)
    ensures After(b.asked, id, 0, b.now)
  {
  }

  lemma HeldKeeps(b: Book, w: nat)
    requires Inv(b)
    ensures Inv(Tick(Held(b, w)))
  {
    hide AllAnswered, Issued, AskedInOrder, ReadValid, WaiterValid, After;
    QuietKeeps(b);
    if w in b.waiters && b.waiters[w].Looking? {
      var x := Tick(Held(b, w));
      HoldingValid(b, w);
      WorkGrows(b, x);
      ChecksGrow(b, x);
      WaitersGrow(b, x);
      Steady(b, x);
    }
  }

  lemma HoldingValid(b: Book, w: nat)
    requires w in b.waiters && b.waiters[w].Looking? && WaiterValid(b, b.waiters[w])
    ensures var x := Tick(Held(b, w)); w in x.waiters && WaiterValid(x, x.waiters[w])
  {
  }

  lemma WaiterReplaced(b: Book, w: nat, y: Waiter)
    requires Inv(b) && WaiterValid(b, y)
    ensures Inv(Tick(b.(waiters := b.waiters[w := y])))
  {
    hide AllAnswered, Issued, AskedInOrder, ReadValid, WaiterValid, After;
    QuietKeeps(b);
    var x := Tick(b.(waiters := b.waiters[w := y]));
    WaiterGrows(b, x, y);
    WaitersGrow(b, x);
    Steady(b, x);
  }

  lemma LookKeeps(b: Book, w: nat)
    requires Inv(b)
    ensures Inv(Tick(LookedAgain(b, w)))
  {
    hide Inv, WaiterValid;
    QuietKeeps(b);
    if w in b.waiters && b.waiters[w].Holding? {
      LookValid(b, w);
      WaiterReplaced(b, w, LookAgain(b, w).waiters[w]);
    }
  }

  /** A waiter returns only what is answered, and blocks only unsatisfied. */
  lemma LookValid(b: Book, w: nat)
    requires Inv(b) && w in b.waiters && b.waiters[w].Holding?
    ensures WaiterValid(b, LookAgain(b, w).waiters[w])
  {
    var y := b.waiters[w];
    assert WaiterValid(b, y) && Answered(b, y.id, y.ticket);
    hide AskedInOrder, WorkValid, ChecksValid, AllAnswered, HasRead, HasCheck, At;
  }

  lemma WokenKeeps(b: Book, w: nat)
    requires Inv(b)
    ensures Inv(Tick(Woken(b, w)))
  {
    hide AllAnswered, Issued, AskedInOrder, WorkValid, ChecksValid, Closed;
    QuietKeeps(b);
    if w in b.waiters && b.waiters[w].Blocked? && Closed(b, b.waiters[w].channel) {
      assert WaiterValid(b, b.waiters[w]);
      WaiterReplaced(b, w, Looking(b.waiters[w].id, b.waiters[w].ticket));
    }
  }

  /** A finished read's receipt: it closes the channel every blocked waiter holds. */
  lemma ReadPublishedKeeps(b: Book, r: nat)
    requires Inv(b)
    ensures Inv(Tick(ReadPublished(b, r)))
  {
    hide AllAnswered, Issued, AskedInOrder, ReadValid, WaiterValid, After;
    QuietKeeps(b);
    if r in b.work && Finished(b.work[r]) {
      var x := Tick(ReadPublished(b, r));
      PublishedGrows(b, r);
      ReadAnswers(b, r);
      AskedSame(b.requests, b.asked, b.now);
      hide Grows, Wakes, Raised;
      WorkGrows(b, x);
      ChecksGrow(b, x);
      WaitersGrow(b, x);
    }
  }

  lemma PublishedGrows(b: Book, r: nat)
    requires AskedInOrder(b.requests, b.asked, b.now) && WorkValid(b) && Issued(b) && r in b.work && Finished(b.work[r])
    ensures var x := Tick(ReadPublished(b, r)); Grows(b, x) && Wakes(b, x) && Issued(x)
  {
    hide AskedInOrder, WorkValid, ReadValid, After;
    FinishedIssued(b, r);
  }

  lemma FinishedIssued(b: Book, r: nat)
    requires AskedInOrder(b.requests, b.asked, b.now) && WorkValid(b) && r in b.work && Finished(b.work[r])
    ensures b.work[r].ticket <= At(b.requests, b.work[r].id)
  {
    assert After(b.asked, b.work[r].id, b.work[r].ticket, b.work[r].began);
  }

  /** A finished read answers every ticket it was the first to reach. */
  lemma ReadAnswers(b: Book, r: nat)
    requires WorkValid(b) && AllAnswered(b) && r in b.work && Finished(b.work[r])
    ensures AllAnswered(Tick(ReadPublished(b, r)))
  {
    var x, y := Tick(ReadPublished(b, r)), b.work[r];
    assert ReadValid(y, b.commits, b.asked, b.validated, b.missing, b.now);
    hide WorkValid;
    forall id, t | (id, t) in x.asked
      ensures Answered(x, id, t)
    {
      assert Answered(b, id, t);
      if At(x.missing, id) < t <= At(x.validated, id) && t > At(b.validated, id) {
        assert id == y.id && t <= y.ticket;
        assert Answers(y, b.asked, id, t);
      }
    }
  }

  lemma AbsentPublishedKeeps(b: Book, c: nat, id: string)
    requires Inv(b)
    ensures Inv(Tick(AbsentPublished(b, c, id)))
  {
    hide AllAnswered, Issued, AskedInOrder, ReadValid, WaiterValid, After;
    QuietKeeps(b);
    if c in b.checks {
      var x := Tick(AbsentPublished(b, c, id));
      AbsentGrows(b, c, id);
      CheckAnswers(b, c, id);
      AskedSame(b.requests, b.asked, b.now);
      hide Grows, Wakes, Raised;
      WorkGrows(b, x);
      ChecksGrow(b, x);
      WaitersGrow(b, x);
    }
  }

  lemma AbsentGrows(b: Book, c: nat, id: string)
    requires AskedInOrder(b.requests, b.asked, b.now) && ChecksValid(b.checks, b.asked) && Issued(b) && c in b.checks
    ensures var x := Tick(AbsentPublished(b, c, id)); Grows(b, x) && Wakes(b, x) && Issued(x)
  {
    var t := At(b.checks[c].tickets, id);
    assert After(b.asked, id, t, b.checks[c].began);
    assert t <= At(b.requests, id);
    hide AskedInOrder, ChecksValid, After;
  }

  lemma CheckAnswers(b: Book, c: nat, id: string)
    requires ChecksValid(b.checks, b.asked) && AllAnswered(b) && c in b.checks
    ensures AllAnswered(Tick(AbsentPublished(b, c, id)))
  {
    var x, a := Tick(AbsentPublished(b, c, id)), AbsenceOf(b.checks[c], id);
    assert After(b.asked, id, a.ticket, a.began);
    hide ChecksValid, HasRead;
    forall i, t | (i, t) in x.asked
      ensures Answered(x, i, t)
    {
      assert Answered(b, i, t);
      if t <= At(x.missing, i) {
        if t <= At(b.missing, i) {
          var a0 :| a0 in b.absences && Denies(a0, b.asked, i, t);
          assert a0 in x.absences && Denies(a0, x.asked, i, t);
        } else {
          assert i == id && Denies(a, x.asked, i, t);
        }
      }
    }
  }

  lemma DoKeeps(b: Book, s: Step)
    requires Inv(b)
    ensures Inv(Do(b, s))
  {
    hide Inv, Tick, Requested, ReadStepped, ReadPublished, Checking, AbsentPublished, Held, LookedAgain, Woken;
    match s {
      case Request(w, id) => RequestKeeps(b, w, id);
      case PublishRead(r) => ReadPublishedKeeps(b, r);
      case FailRead(r) => EndedKeeps(b, r, 0, 0);
      case BeginCheck(_) => CheckingKeeps(b, s);
      case Report(id) => ReportKeeps(b, id);
      case BeginDeletion(_, _, _) => CheckingKeeps(b, s);
      case PublishAbsent(c, id) => AbsentPublishedKeeps(b, c, id);
      case EndCheck(c) => EndedKeeps(b, 0, c, 0);
      case TakeChannel(w) => HeldKeeps(b, w);
      case Look(w) => LookKeeps(b, w);
      case Wake(w) => WokenKeeps(b, w);
      case Cancel(w) => EndedKeeps(b, 0, 0, w);
      case _ => ReadSteppedKeeps(b, s);
    }
  }

  lemma {:induction false} RunKeeps(b: Book, steps: seq<Step>)
    requires Inv(b)
    ensures Inv(Run(b, steps))
    decreases |steps|
  {
    if steps != [] {
      DoKeeps(b, steps[0]);
      RunKeeps(Do(b, steps[0]), steps[1..]);
    }
  }

  // ---- what the receipts mean ----

  /** A new ticket is later than every other of its session and nothing published answers it. */
  lemma TicketFresh(b: Book, id: string)
    requires Inv(b)
    ensures var x, t := NextTicket(b, id), At(NextTicket(b, id).requests, id);
            && (forall u :: (id, u) in b.asked ==> u < t)
            && !Satisfied(x, id, t) && ExplicitReadPending(x, id)
  {
    hide WorkValid, ChecksValid, AllAnswered, Waiters;
  }

  /** What is cancelled, fails or ends without a result is gone, and answers nothing. */
  lemma EndedGone(b: Book, r: nat, c: nat, w: nat)
    ensures Do(b, Cancel(w)) == b.(waiters := b.waiters - {w}, now := b.now + 1)
    ensures Do(b, FailRead(r)) == b.(work := b.work - {r}, now := b.now + 1)
    ensures Do(b, EndCheck(c)) == b.(checks := b.checks - {c}, now := b.now + 1)
  {
  }

  /** A receipt satisfies exactly the tickets up to its own, and closes every channel handed out. */
  lemma ReceiptSatisfies(b: Book, id: string, ticket: nat, i: string, t: nat)
    requires t > 0
    ensures Satisfied(PublishReceipt(b, id, ticket), i, t) <==> Satisfied(b, i, t) || (i == id && t <= ticket)
    ensures forall c: nat :: c <= b.channel ==> Closed(PublishReceipt(b, id, ticket), c)
  {
  }

  lemma AbsenceSatisfies(b: Book, id: string, ticket: nat, i: string, t: nat)
    requires t > 0
    ensures Satisfied(PublishMissing(b, id, ticket), i, t) <==> Satisfied(b, i, t) || (i == id && t <= ticket)
    ensures forall c: nat :: c <= b.channel ==> Closed(PublishMissing(b, id, ticket), c)
  {
  }

  /** The channel taken is open, no closed one is handed out again, and takers share it until a receipt. */
  lemma ChannelShared(b: Book)
    ensures var x := ReceiptChanges(b);
            && !Closed(x, x.channel) && ReceiptChanges(x) == x
            && forall c: nat :: c <= b.channel && Closed(b, c) ==> Closed(x, c)
  {
  }

  /** A blocked request that has been answered is woken, and then returns. */
  lemma NoLostWake(b: Book, w: nat)
    requires Inv(b) && w in b.waiters && b.waiters[w].Blocked?
    requires Satisfied(b, b.waiters[w].id, b.waiters[w].ticket)
    ensures var x := Do(Do(Do(b, Wake(w)), TakeChannel(w)), Look(w));
            w in x.waiters && x.waiters[w].Returned?
  {
    assert WaiterValid(b, b.waiters[w]);
    hide AskedInOrder, WorkValid, ChecksValid, AllAnswered, Waiters, HasRead, HasCheck, At;
    WakeStep(b, w);
    var y := Do(b, Wake(w));
    ReturnStep(y, w);
  }

  lemma WakeStep(b: Book, w: nat)
    requires w in b.waiters && b.waiters[w].Blocked? && Closed(b, b.waiters[w].channel)
    ensures var x, y := Do(b, Wake(w)), b.waiters[w];
            && w in x.waiters && x.waiters[w] == Looking(y.id, y.ticket)
            && x.validated == b.validated && x.missing == b.missing
  {
  }

  /** A request that looks at receipts that satisfy it returns. */
  lemma ReturnStep(b: Book, w: nat)
    requires w in b.waiters && b.waiters[w].Looking? && Satisfied(b, b.waiters[w].id, b.waiters[w].ticket)
    ensures var x, y := Do(Do(b, TakeChannel(w)), Look(w)), b.waiters[w];
            && w in x.waiters
            && x.waiters[w] == Returned(y.id, y.ticket, if At(b.missing, y.id) >= y.ticket then Missing else Validated)
            && x.asked == b.asked && x.commits == b.commits && x.absences == b.absences && x.reports == b.reports
  {
    hide At;
    var x := Do(b, TakeChannel(w));
    assert x.waiters[w] == Holding(b.waiters[w].id, b.waiters[w].ticket, x.channel);
    assert x.missing == b.missing && x.validated == b.validated;
  }

  /**
   In every interleaving: a request that returned validated follows a source read that began
   after it asked, stored whole unless a named read was looked at before it asked; one that
   returned missing follows a check that began after it asked; and one still blocked on an
   open channel is not satisfied.
   */
  lemma NeverStale(steps: seq<Step>, w: nat)
    requires w in Run(EMPTY, steps).waiters
    ensures var b := Run(EMPTY, steps);
            var x := b.waiters[w];
            && (x.id, x.ticket) in b.asked
            && (x.Returned? && x.outcome == Validated ==> exists r :: r in b.commits && Answers(r, b.asked, x.id, x.ticket))
            && (x.Returned? && x.outcome == Missing ==> exists a :: a in b.absences && Denies(a, b.asked, x.id, x.ticket))
            && (x.Blocked? && Satisfied(b, x.id, x.ticket) ==> Closed(b, x.channel))
  {
    RunKeeps(EMPTY, steps);
    var b := Run(EMPTY, steps);
    assert WaiterValid(b, b.waiters[w]);
    hide Answers, Denies, AskedInOrder, WorkValid, ChecksValid, AllAnswered;
  }

  /** A named read of the session that the ticket was issued inside of. */
  predicate Raced(r: Read, asked: map<(string, nat), nat>, id: string, t: nat)
    requires (id, t) in asked
  {
    r.id == id && r.scope.Named? && r.scope.looked < asked[(id, t)] <= r.began
  }

  /** A request made inside no named read is validated by a whole read that was stored after it asked. */
  lemma StoredUnlessRaced(steps: seq<Step>, w: nat)
    requires w in Run(EMPTY, steps).waiters
    requires Run(EMPTY, steps).waiters[w].Returned? && Run(EMPTY, steps).waiters[w].outcome == Validated
    ensures var b := Run(EMPTY, steps);
            var x := b.waiters[w];
            && (x.id, x.ticket) in b.asked
            && ((forall r :: r in b.commits ==> !Raced(r, b.asked, x.id, x.ticket)) ==>
                  exists r :: r in b.commits && r.id == x.id && r.scope == Whole && r.progress == Stored
                              && b.asked[(x.id, x.ticket)] <= r.began)
  {
    NeverStale(steps, w);
    var b := Run(EMPTY, steps);
    var x := b.waiters[w];
    hide Run;
    var r :| r in b.commits && Answers(r, b.asked, x.id, x.ticket);
    assert r.scope.Named? ==> Raced(r, b.asked, x.id, x.ticket);
  }

  /** Applying a reported deletion answers every request of the session waiting then, whenever it was reported. */
  lemma DeletionAnswers(b: Book, c: nat, w: nat, reported: nat)
    requires Inv(b) && w in b.waiters && b.waiters[w].Looking? && c !in b.checks && (b.waiters[w].id, reported) in b.reports
    ensures var id, t := b.waiters[w].id, b.waiters[w].ticket;
            var x := Run(b, [BeginDeletion(c, id, reported), PublishAbsent(c, id), TakeChannel(w), Look(w)]);
            && w in x.waiters && x.waiters[w] == Returned(id, t, Missing) && x.asked == b.asked
            && x.absences == b.absences + {Absence(id, At(b.requests, id), b.now, Deletion(reported))}
            && x.reports == b.reports - {(id, reported)}
  {
    var id, t := b.waiters[w].id, b.waiters[w].ticket;
    assert WaiterValid(b, b.waiters[w]);
    assert t <= At(b.requests, id);
    DeletionStep(b, c, id, reported);
    hide Inv, Do, Run, At;
    var y := Do(Do(b, BeginDeletion(c, id, reported)), PublishAbsent(c, id));
    ReturnStep(y, w);
    RunFour(b, BeginDeletion(c, id, reported), PublishAbsent(c, id), TakeChannel(w), Look(w));
  }

  lemma DeletionStep(b: Book, c: nat, id: string, reported: nat)
    requires c !in b.checks && (id, reported) in b.reports
    ensures var x := Do(Do(b, BeginDeletion(c, id, reported)), PublishAbsent(c, id));
            && x.waiters == b.waiters && x.asked == b.asked && x.validated == b.validated
            && At(x.missing, id) >= At(b.requests, id)
            && x.absences == b.absences + {Absence(id, At(b.requests, id), b.now, Deletion(reported))}
            && x.reports == b.reports - {(id, reported)}
  {
  }

  // ---- what a not-found answer rests on ----

  /** A deletion of the session was reported and is not applied yet. */
  ghost predicate DeletionPending(b: Book, id: string) { exists r: nat :: (id, r) in b.reports }

  /** The request is answered as not found, by nothing seen since it asked. */
  ghost predicate AnsweredStale(b: Book, w: nat, id: string, t: nat) {
    && w in b.waiters && b.waiters[w] == Returned(id, t, Missing) && (id, t) in b.asked
    && forall a :: a in b.absences && Denies(a, b.asked, id, t) ==> Evidence(a) < b.asked[(id, t)]
  }

  /** Every report of the session, and every deletion that can answer the ticket, came after it was asked. */
  ghost predicate ReportedSince(b: Book, id: string, t: nat) {
    && (id, t) in b.asked && b.asked[(id, t)] < b.now
    && (forall r: nat :: (id, r) in b.reports ==> b.asked[(id, t)] <= r)
    && (forall c :: c in b.checks && b.checks[c].sign.Deletion? && t <= At(b.checks[c].tickets, id) ==>
          b.asked[(id, t)] <= b.checks[c].sign.reported)
    && (forall a :: a in b.absences && a.id == id && t <= a.ticket && a.sign.Deletion? ==> b.asked[(id, t)] <= a.sign.reported)
  }

  ghost predicate AbsencesIssued(b: Book) {
    && (forall a :: a in b.absences ==> a.ticket <= At(b.requests, a.id))
    && (forall c, id :: c in b.checks ==> At(b.checks[c].tickets, id) <= At(b.requests, id))
    && (forall id, r: nat :: (id, r) in b.reports ==> r < b.now)
  }

  /** Only requests, reports and checks change what a not-found answer rests on. */
  ghost predicate SameEvidence(b: Book, x: Book) {
    && x.asked == b.asked && x.requests == b.requests && x.reports == b.reports && x.absences == b.absences
    && x.now == b.now + 1 && forall c :: c in x.checks ==> c in b.checks && x.checks[c] == b.checks[c]
  }

  lemma OtherSteps(b: Book, s: Step)
    requires !s.Request? && !s.Report? && !s.BeginCheck? && !s.BeginDeletion? && !s.PublishAbsent?
    ensures SameEvidence(b, Do(b, s))
  {
    if s.TakeChannel? || s.Look? || s.Wake? || s.Cancel? {
      WaiterSteps(b, s);
    } else {
      ReadSteps(b, s);
    }
  }

  lemma WaiterSteps(b: Book, s: Step)
    requires s.TakeChannel? || s.Look? || s.Wake? || s.Cancel?
    ensures SameEvidence(b, Do(b, s))
  {
    hide At, Closed, Requested, ReadStepped, ReadPublished, AbsentPublished, Checking;
  }

  lemma ReadSteps(b: Book, s: Step)
    requires s.BeginRead? || s.LookPending? || s.BeginNamed? || s.StoreRead? || s.ApproveRead? || s.PublishRead? || s.FailRead? || s.EndCheck?
    ensures SameEvidence(b, Do(b, s))
  {
    hide NextRead, MayRead, At, Raised, Requested, ReadStepped, AbsentPublished, Checking, Held, LookedAgain, Woken;
    ReadFrame(b, s);
  }

  lemma ReadFrame(b: Book, s: Step)
    ensures var x := ReadStepped(b, s);
            && x.asked == b.asked && x.requests == b.requests && x.reports == b.reports && x.absences == b.absences
            && x.now == b.now && x.checks == b.checks
  {
    hide NextRead, MayRead, Finished;
  }

  lemma AbsencesStep(b: Book, s: Step)
    requires AbsencesIssued(b)
    ensures AbsencesIssued(Do(b, s))
  {
    if s.Request? {
      RequestIssued(b, s);
    } else if s.BeginCheck? || s.BeginDeletion? {
      CheckIssued(b, s);
    } else if s.PublishAbsent? {
      AbsenceIssued(b, s.check, s.id);
    } else if !s.Report? {
      hide Do;
      OtherSteps(b, s);
    }
  }

  lemma RequestIssued(b: Book, s: Step)
    requires AbsencesIssued(b) && s.Request?
    ensures AbsencesIssued(Do(b, s))
  {
    assert forall i :: At(b.requests, i) <= At(Do(b, s).requests, i);
    hide At;
  }

  lemma CapturedIssued(b: Book, s: Step)
    requires s.BeginCheck? || s.BeginDeletion?
    ensures forall i :: At(Captured(b, s), i) <= At(b.requests, i)
    ensures s.BeginDeletion? ==> forall i :: i != s.id ==> At(Captured(b, s), i) == 0
  {
  }

  /** A check that begins is the only thing its step changes. */
  lemma CheckTaken(b: Book, s: Step, c: nat)
    requires (s.BeginCheck? || s.BeginDeletion?) && c in Do(b, s).checks
    ensures (c in b.checks && Do(b, s).checks[c] == b.checks[c])
            || (Do(b, s).checks[c].tickets == Captured(b, s)
                && (s.BeginDeletion? ==> (s.id, s.reported) in b.reports)
                && Do(b, s).checks[c].sign == if s.BeginCheck? then Inventory else Deletion(s.reported))
  {
  }

  lemma CheckFrame(b: Book, s: Step)
    requires s.BeginCheck? || s.BeginDeletion?
    ensures var x := Do(b, s);
            && x.asked == b.asked && x.requests == b.requests && x.reports == b.reports && x.absences == b.absences
            && x.now == b.now + 1
  {
    hide At, Captured, Requested, ReadStepped, ReadPublished, AbsentPublished, Held, LookedAgain, Woken;
  }

  lemma CheckIssued(b: Book, s: Step)
    requires AbsencesIssued(b) && (s.BeginCheck? || s.BeginDeletion?)
    ensures AbsencesIssued(Do(b, s))
  {
    hide At, Captured, Do;
    CapturedIssued(b, s);
    CheckFrame(b, s);
    forall c, id | c in Do(b, s).checks
      ensures At(Do(b, s).checks[c].tickets, id) <= At(b.requests, id)
    {
      CheckTaken(b, s, c);
    }
  }

  lemma AbsenceIssued(b: Book, c: nat, id: string)
    requires AbsencesIssued(b)
    ensures AbsencesIssued(Do(b, PublishAbsent(c, id)))
  {
    hide At;
  }

  lemma {:induction false} AbsencesRun(b: Book, steps: seq<Step>)
    requires AbsencesIssued(b)
    ensures AbsencesIssued(Run(b, steps))
    decreases |steps|
  {
    hide AbsencesIssued, Do;
    if steps != [] {
      AbsencesStep(b, steps[0]);
      AbsencesRun(Do(b, steps[0]), steps[1..]);
    }
  }

  lemma SinceStep(b: Book, s: Step, id: string, t: nat)
    requires ReportedSince(b, id, t) && 0 < t <= At(b.requests, id)
    ensures ReportedSince(Do(b, s), id, t) && Do(b, s).asked[(id, t)] == b.asked[(id, t)] && t <= At(Do(b, s).requests, id)
  {
    if s.BeginCheck? || s.BeginDeletion? {
      CheckSince(b, s, id, t);
    } else if s.PublishAbsent? {
      AbsenceSince(b, s.check, s.id, id, t);
    } else if !s.Request? && !s.Report? {
      hide Do, At;
      OtherSteps(b, s);
    }
  }

  lemma CheckSince(b: Book, s: Step, id: string, t: nat)
    requires ReportedSince(b, id, t) && 0 < t && (s.BeginCheck? || s.BeginDeletion?)
    ensures ReportedSince(Do(b, s), id, t)
    ensures Do(b, s).asked == b.asked && Do(b, s).requests == b.requests
  {
    hide At, Captured, Do;
    CapturedIssued(b, s);
    CheckFrame(b, s);
    var x := Do(b, s);
    forall c | c in x.checks && x.checks[c].sign.Deletion? && t <= At(x.checks[c].tickets, id)
      ensures b.asked[(id, t)] <= x.checks[c].sign.reported
    {
      CheckTaken(b, s, c);
    }
  }

  lemma AbsenceSince(b: Book, c: nat, i: string, id: string, t: nat)
    requires ReportedSince(b, id, t)
    ensures ReportedSince(Do(b, PublishAbsent(c, i)), id, t)
    ensures Do(b, PublishAbsent(c, i)).asked == b.asked && Do(b, PublishAbsent(c, i)).requests == b.requests
  {
    hide At;
  }

  lemma {:induction false} SinceRun(b: Book, steps: seq<Step>, id: string, t: nat)
    requires ReportedSince(b, id, t) && 0 < t <= At(b.requests, id)
    ensures ReportedSince(Run(b, steps), id, t)
    decreases |steps|
  {
    hide ReportedSince, Do;
    if steps != [] {
      SinceStep(b, steps[0], id, t);
      SinceRun(Do(b, steps[0]), steps[1..], id, t);
    }
  }

  /** The ticket of a request made while no deletion is pending. */
  lemma RequestSince(b: Book, w: nat, id: string)
    requires AbsencesIssued(b) && w !in b.waiters && !DeletionPending(b, id)
    ensures ReportedSince(Do(b, Request(w, id)), id, At(b.requests, id) + 1)
    ensures At(Do(b, Request(w, id)).requests, id) == At(b.requests, id) + 1
  {
  }

  /** An answer to such a ticket rests on something seen since. */
  lemma SinceFollows(b: Book, w: nat, id: string, t: nat)
    requires Inv(b) && ReportedSince(b, id, t)
    ensures !AnsweredStale(b, w, id, t)
  {
    if w in b.waiters && b.waiters[w] == Returned(id, t, Missing) {
      assert WaiterValid(b, b.waiters[w]);
      assert HasCheck(b.absences, b.asked, id, t);
      var a :| a in b.absences && Denies(a, b.asked, id, t);
      assert Evidence(a) >= b.asked[(id, t)];
    }
  }

  /**
   A request can be answered as not found by nothing newer than itself if and only if, when it
   asks, a deletion of the session is reported and not applied yet.
   */
  lemma NotFoundFollows(before: seq<Step>, w: nat, id: string)
    requires w !in Run(EMPTY, before).waiters
    ensures var b := Run(EMPTY, before);
            (exists after :: AnsweredStale(Run(Do(b, Request(w, id)), after), w, id, At(b.requests, id) + 1))
            <==> DeletionPending(b, id)
  {
    var b, t := Run(EMPTY, before), At(Run(EMPTY, before).requests, id) + 1;
    hide Run, Inv, AbsencesIssued, ReportedSince, AnsweredStale, Do;
    EmptyValid();
    RunKeeps(EMPTY, before);
    EmptyIssued();
    AbsencesRun(EMPTY, before);
    var x := Do(b, Request(w, id));
    DoKeeps(b, Request(w, id));
    if DeletionPending(b, id) {
      var r: nat :| (id, r) in b.reports;
      var c := NumbersBounded(x.checks.Keys);
      StaleRun(b, w, id, r, c);
    } else {
      RequestSince(b, w, id);
      forall after: seq<Step>
        ensures !AnsweredStale(Run(x, after), w, id, t)
      {
        RunKeeps(x, after);
        SinceRun(x, after, id, t);
        SinceFollows(Run(x, after), w, id, t);
      }
    }
  }

  lemma EmptyIssued()
    ensures AbsencesIssued(EMPTY)
  {
  }

  lemma {:induction false} NumbersBounded(used: set<nat>) returns (c: nat)
    ensures forall n :: n in used ==> n < c
    decreases used
  {
    if used == {} {
      c := 0;
    } else {
      var m :| m in used;
      var d := NumbersBounded(used - {m});
      c := Max(d, m + 1);
      assert forall n :: n in used ==> n == m || n in used - {m};
    }
  }

  /** Applying the pending deletion at once answers the request by it alone. */
  lemma StaleRun(b: Book, w: nat, id: string, r: nat, c: nat)
    requires Inv(b) && AbsencesIssued(b) && w !in b.waiters && (id, r) in b.reports && c !in Do(b, Request(w, id)).checks
    ensures var after := [BeginDeletion(c, id, r), PublishAbsent(c, id), TakeChannel(w), Look(w)];
            AnsweredStale(Run(Do(b, Request(w, id)), after), w, id, At(b.requests, id) + 1)
  {
    hide Run, Inv, Do, At;
    DoKeeps(b, Request(w, id));
    RequestStep(b, w, id);
    DeletionAnswers(Do(b, Request(w, id)), c, w, r);
    hide AbsencesIssued;
  }

  lemma RequestStep(b: Book, w: nat, id: string)
    requires w !in b.waiters
    ensures var x, t := Do(b, Request(w, id)), At(b.requests, id) + 1;
            && w in x.waiters && x.waiters[w] == Looking(id, t) && x.reports == b.reports && x.absences == b.absences
            && (id, t) in x.asked && x.asked[(id, t)] == b.now
  {
  }

  lemma RunFour(b: Book, s: Step, t: Step, u: Step, v: Step)
    ensures Run(b, [s, t, u, v]) == Do(Do(Do(Do(b, s), t), u), v)
  {
    hide Do;
    assert [s, t, u, v][1..] == [t, u, v] && [t, u, v][1..] == [u, v] && [u, v][1..] == [v] && [v][1..] == [];
    assert Run(Do(Do(Do(b, s), t), u), [v]) == Run(Do(Do(Do(Do(b, s), t), u), v), []);
    assert Run(Do(Do(b, s), t), [u, v]) == Run(Do(Do(Do(b, s), t), u), [v]);
    assert Run(Do(b, s), [t, u, v]) == Run(Do(Do(b, s), t), [u, v]);
  }

  lemma {:induction false} RunConcat(b: Book, s: seq<Step>, t: seq<Step>)
    ensures Run(b, s + t) == Run(Run(b, s), t)
    decreases |s|
  {
    hide Do;
    if s == [] {
      assert s + t == t;
    } else {
      assert (s + t)[0] == s[0] && (s + t)[1..] == s[1..] + t;
      RunConcat(Do(b, s[0]), s[1..], t);
    }
  }

  function LateRequest(id: string): seq<Step> { [Report(id), Request(0, id)] }

  function Deleted(id: string): seq<Step> { [BeginDeletion(0, id, 0), PublishAbsent(0, id), TakeChannel(0), Look(0)] }

  /** A run that answers a request not found on a report older than itself. */
  lemma DeletionReportedEarlier(id: string)
    ensures var b := Run(EMPTY, LateRequest(id) + Deleted(id));
            && 0 in b.waiters && b.waiters[0] == Returned(id, 1, Missing) && (id, 1) in b.asked
            && forall a :: a in b.absences ==> Evidence(a) < b.asked[(id, 1)] <= a.began
  {
    hide Run, Inv, Do, At, LateRequest, Deleted;
    var b := Run(EMPTY, LateRequest(id));
    LateRequested(id);
    EmptyValid();
    RunKeeps(EMPTY, LateRequest(id));
    DeletedSteps(id);
    DeletionAnswers(b, 0, 0, 0);
    RunConcat(EMPTY, LateRequest(id), Deleted(id));
  }

  lemma EmptyValid()
    ensures Inv(EMPTY)
  {
  }

  lemma DeletedSteps(id: string)
    ensures Deleted(id) == [BeginDeletion(0, id, 0), PublishAbsent(0, id), TakeChannel(0), Look(0)]
  {
  }

  lemma LateRequested(id: string)
    ensures var b := Run(EMPTY, LateRequest(id));
            && b.waiters == map[0 := Looking(id, 1)] && b.asked == map[(id, 1) := 1] && b.now == 2
            && b.checks == map[] && b.absences == {} && At(b.requests, id) == 1 && b.reports == {(id, 0)}
  {
    var x := Do(EMPTY, Report(id));
    assert x == EMPTY.(now := 1, reports := {(id, 0)});
    var s := LateRequest(id);
    assert s[1..] == [Request(0, id)] && s[1..][1..] == [];
    assert Run(x, s[1..]) == Run(Do(x, Request(0, id)), []);
  }

  /** Approving a named read that a waiting request was asked inside of validates it, storing nothing. */
  lemma ApprovalAnswers(b: Book, r: nat, w: nat)
    requires Inv(b) && r in b.work && b.work[r].progress == Reading && b.work[r].scope.Named?
    requires w in b.waiters && b.waiters[w].Looking? && b.waiters[w].id == b.work[r].id && b.waiters[w].ticket <= b.work[r].ticket
    ensures var id, t := b.waiters[w].id, b.waiters[w].ticket;
            var x := Run(b, [ApproveRead(r), PublishRead(r), TakeChannel(w), Look(w)]);
            && w in x.waiters && x.waiters[w] == Returned(id, t, if At(b.missing, id) >= t then Missing else Validated)
            && x.asked == b.asked && x.commits == b.commits + {b.work[r].(progress := Approved)}
  {
    assert WaiterValid(b, b.waiters[w]);
    ApprovalStep(b, r);
    hide Inv, Do, Run, At;
    var y := Do(Do(b, ApproveRead(r)), PublishRead(r));
    ReturnStep(y, w);
    RunFour(b, ApproveRead(r), PublishRead(r), TakeChannel(w), Look(w));
  }

  lemma ApprovalStep(b: Book, r: nat)
    requires r in b.work && b.work[r].progress == Reading && b.work[r].scope.Named?
    ensures var x, id := Do(Do(b, ApproveRead(r)), PublishRead(r)), b.work[r].id;
            && x.waiters == b.waiters && x.asked == b.asked && x.missing == b.missing
            && (b.work[r].ticket > 0 ==> At(x.validated, id) >= b.work[r].ticket)
            && x.commits == b.commits + {b.work[r].(progress := Approved)}
  {
    Approving(b, r);
    hide Do;
    Publishing(Do(b, ApproveRead(r)), r);
  }

  lemma Approving(b: Book, r: nat)
    requires r in b.work && b.work[r].progress == Reading && b.work[r].scope.Named?
    ensures var x, y := Do(b, ApproveRead(r)), b.work[r].(progress := Approved);
            && x.waiters == b.waiters && x.asked == b.asked && x.missing == b.missing
            && r in x.work && x.work[r] == y && x.commits == b.commits + {y}
  {
    hide At;
  }

  lemma Publishing(b: Book, r: nat)
    requires r in b.work && Finished(b.work[r])
    ensures var x, id := Do(b, PublishRead(r)), b.work[r].id;
            && x.waiters == b.waiters && x.asked == b.asked && x.missing == b.missing && x.commits == b.commits
            && (b.work[r].ticket > 0 ==> At(x.validated, id) >= b.work[r].ticket)
  {
  }

  /** A source read of the whole session, stored, validates every request waiting when it began. */
  lemma WholeReadAnswers(b: Book, r: nat, w: nat)
    requires Inv(b) && r !in b.work && w in b.waiters && b.waiters[w].Looking?
    ensures var id, t := b.waiters[w].id, b.waiters[w].ticket;
            var x := Run(b, [BeginRead(r, id), StoreRead(r), PublishRead(r), TakeChannel(w), Look(w)]);
            && w in x.waiters && x.waiters[w] == Returned(id, t, if At(b.missing, id) >= t then Missing else Validated)
            && x.asked == b.asked && x.commits == b.commits + {Read(id, At(b.requests, id), b.now, Whole, Stored)}
  {
    var id, t := b.waiters[w].id, b.waiters[w].ticket;
    assert WaiterValid(b, b.waiters[w]);
    assert t <= At(b.requests, id);
    Storing(b, r, id);
    hide Inv, Do, Run, At;
    Publishing(Do(Do(b, BeginRead(r, id)), StoreRead(r)), r);
    var y := Do(Do(Do(b, BeginRead(r, id)), StoreRead(r)), PublishRead(r));
    ReturnStep(y, w);
    RunFour(Do(b, BeginRead(r, id)), StoreRead(r), PublishRead(r), TakeChannel(w), Look(w));
    RunFirst(b, BeginRead(r, id), [StoreRead(r), PublishRead(r), TakeChannel(w), Look(w)]);
  }

  lemma Storing(b: Book, r: nat, id: string)
    requires r !in b.work
    ensures var x, y := Do(Do(b, BeginRead(r, id)), StoreRead(r)), Read(id, At(b.requests, id), b.now, Whole, Stored);
            && x.waiters == b.waiters && x.asked == b.asked && x.missing == b.missing
            && r in x.work && x.work[r] == y && x.commits == b.commits + {y}
  {
    hide At;
  }

  lemma RunFirst(b: Book, s: Step, rest: seq<Step>)
    ensures Run(b, [s] + rest) == Run(Do(b, s), rest)
  {
    hide Do;
    assert ([s] + rest)[0] == s && ([s] + rest)[1..] == rest;
  }

  /** A complete inventory that lacks the session answers every request waiting when it began as not found. */
  lemma InventoryAnswers(b: Book, c: nat, w: nat)
    requires Inv(b) && w in b.waiters && b.waiters[w].Looking? && c !in b.checks
    ensures var id, t := b.waiters[w].id, b.waiters[w].ticket;
            var x := Run(b, [BeginCheck(c), PublishAbsent(c, id), TakeChannel(w), Look(w)]);
            && w in x.waiters && x.waiters[w] == Returned(id, t, Missing) && x.asked == b.asked
            && x.absences == b.absences + {Absence(id, At(b.requests, id), b.now, Inventory)}
  {
    var id, t := b.waiters[w].id, b.waiters[w].ticket;
    assert WaiterValid(b, b.waiters[w]);
    assert t <= At(b.requests, id);
    InventoryStep(b, c, id);
    hide Inv, Do, Run, At;
    ReturnStep(Do(Do(b, BeginCheck(c)), PublishAbsent(c, id)), w);
    RunFour(b, BeginCheck(c), PublishAbsent(c, id), TakeChannel(w), Look(w));
  }

  lemma InventoryStep(b: Book, c: nat, id: string)
    requires c !in b.checks
    ensures var x := Do(Do(b, BeginCheck(c)), PublishAbsent(c, id));
            && x.waiters == b.waiters && x.asked == b.asked && x.validated == b.validated
            && At(x.missing, id) >= At(b.requests, id)
            && x.absences == b.absences + {Absence(id, At(b.requests, id), b.now, Inventory)}
  {
  }

  function RacedSteps(id: string): seq<Step> { [LookPending(0, id), Request(0, id), BeginNamed(0), ApproveRead(0)] }

  function Published(): seq<Step> { [PublishRead(0), TakeChannel(0), Look(0)] }

  /** A request made inside a named read is validated by it although it stored nothing. */
  lemma ApprovedUnstored(id: string)
    ensures var b := Run(EMPTY, RacedSteps(id) + Published());
            && 0 in b.waiters && b.waiters[0] == Returned(id, 1, Validated)
            && forall r :: r in b.commits ==> r.progress == Approved
  {
    var b := Run(EMPTY, RacedSteps(id));
    RacedRun(id);
    var x := Do(b, PublishRead(0));
    assert x.validated == map[id := 1] && x.waiters == b.waiters && x.missing == map[] && x.commits == b.commits by {
      assert b.work[0].ticket == 1;
    }
    ReturnStep(x, 0);
    RunConcat(EMPTY, RacedSteps(id), Published());
    RunThree(b, PublishRead(0), TakeChannel(0), Look(0));
    hide Do, Run;
  }

  lemma RunThree(b: Book, s: Step, t: Step, u: Step)
    ensures Run(b, [s, t, u]) == Do(Do(Do(b, s), t), u)
  {
    hide Do;
    assert [s, t, u][1..] == [t, u] && [t, u][1..] == [u] && [u][1..] == [];
    assert Run(Do(Do(b, s), t), [u]) == Run(Do(Do(Do(b, s), t), u), []);
    assert Run(Do(b, s), [t, u]) == Run(Do(Do(b, s), t), [u]);
  }

  lemma RacedRun(id: string)
    ensures var b := Run(EMPTY, RacedSteps(id));
            && b.waiters == map[0 := Looking(id, 1)] && b.asked == map[(id, 1) := 1]
            && b.validated == map[] && b.missing == map[] && !b.open
            && b.work == map[0 := Read(id, 1, 2, Named(0, 0), Approved)] && b.commits == {b.work[0]}
  {
    RunFour(EMPTY, LookPending(0, id), Request(0, id), BeginNamed(0), ApproveRead(0));
    hide Run;
    var x := EMPTY.(work := map[0 := Read(id, 0, 0, Named(0, 0), Looked)], now := 1);
    assert Do(EMPTY, LookPending(0, id)) == x;
    var y := x.(requests := map[id := 1], asked := map[(id, 1) := 1], waiters := map[0 := Looking(id, 1)], now := 2);
    assert Do(x, Request(0, id)) == y;
    var z := y.(work := map[0 := Read(id, 1, 2, Named(0, 0), Reading)], now := 3);
    assert Do(y, BeginNamed(0)) == z;
  }

  /** An explicit read is pending exactly while some issued ticket is not satisfied. */
  lemma PendingExactly(b: Book, id: string)
    requires AskedInOrder(b.requests, b.asked, b.now)
    ensures ExplicitReadPending(b, id) <==> exists t :: (id, t) in b.asked && !Satisfied(b, id, t)
  {
    var last := At(b.requests, id);
    if ExplicitReadPending(b, id) {
      assert (id, last) in b.asked && !Satisfied(b, id, last);
    }
  }

  // ---- the receipts object ----

  /** The receipts of one source, each operation under its lock. */
  class Receipts {
    var requests: map<string, nat>
    var validated: map<string, nat>
    var missing: map<string, nat>
    var channel: nat
    var open: bool

    /** The operation changes a book's receipts as this object's. */
    ghost predicate Is(b: Book)
      reads this
    {
      requests == b.requests && validated == b.validated && missing == b.missing && channel == b.channel && open == b.open
    }

    constructor ()
      ensures Is(EMPTY)
    {
      requests, validated, missing, channel, open := map[], map[], map[], 0, false;
    }

    method TakeTicket(id: string, ghost b: Book) returns (ticket: nat)
      requires Is(b)
      modifies `requests
      ensures Is(NextTicket(b, id)) && ticket == At(requests, id) > old(At(requests, id))
    {
      ticket := At(requests, id) + 1;
      requests := requests[id := ticket];
    }

    method Publish(id: string, ticket: nat, ghost b: Book)
      requires Is(b)
      modifies `validated, `open
      ensures Is(PublishReceipt(b, id, ticket)) && forall i :: At(validated, i) >= old(At(validated, i))
    {
      if ticket > 0 {
        validated := validated[id := Max(At(validated, id), ticket)];
      }
      if open {
        open := false;
      }
    }

    method PublishGone(id: string, ticket: nat, ghost b: Book)
      requires Is(b)
      modifies `missing, `open
      ensures Is(PublishMissing(b, id, ticket)) && forall i :: At(missing, i) >= old(At(missing, i))
    {
      if ticket > 0 {
        missing := missing[id := Max(At(missing, id), ticket)];
      }
      if open {
        open := false;
      }
    }

    method Changes(ghost b: Book) returns (ch: nat)
      requires Is(b)
      modifies `channel, `open
      ensures Is(ReceiptChanges(b)) && ch == channel
    {
      if !open {
        channel, open := channel + 1, true;
      }
      ch := channel;
    }

    /** What a waiter that holds a channel does next. */
    method Decide(w: nat, ghost b: Book, x: Waiter) returns (y: Waiter)
      requires Is(b) && w in b.waiters && b.waiters[w] == x && x.Holding?
      ensures y == LookAgain(b, w).waiters[w]
    {
      if At(missing, x.id) >= x.ticket {
        y := Returned(x.id, x.ticket, Missing);
      } else if At(validated, x.id) >= x.ticket {
        y := Returned(x.id, x.ticket, Validated);
      } else {
        y := Blocked(x.id, x.ticket, x.channel);
      }
    }
  }
}

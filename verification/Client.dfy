/** The client reducer: the live overlay and the streamed content, folded event by event. */
module Client {
  import opened Events
  import opened StreamContent

  datatype Client = Client(
    status: Status,
    prompts: map<string, Prompt>,
    judge: map<string, Judge>,
    resolved: set<string>,
    background: Background,
    queue: Option<seq<int>>,
    content: Content)

  /** A resolved prompt is neither open nor judged. */
  ghost predicate WellFormed(c: Client) {
    forall id :: id in c.resolved ==> id !in c.prompts && id !in c.judge
  }

  /** An absent notice leaves the shown one unchanged. */
  function MergeStatus(was: Status, s: Status): Status {
    if s.notice.Absent? then s.(notice := was.notice) else s
  }

  predicate Absolute(s: Status) { !s.notice.Absent? }

  function Ask(c: Client, p: Prompt): Client {
    if p.id in c.resolved then c else c.(prompts := c.prompts[p.id := p])
  }

  function Judged(c: Client, j: Judge): Client {
    if j.promptId in c.resolved then c else c.(judge := c.judge[j.promptId := j])
  }

  function Resolve(c: Client, id: string): Client {
    if id in c.resolved then c
    else c.(resolved := c.resolved + {id}, judge := c.judge - {id}, prompts := c.prompts - {id})
  }

  function Step(c: Client, e: Event): Client {
    match e
    case StatusChanged(s) => c.(status := MergeStatus(c.status, s))
    case PromptAsked(p) => Ask(c, p)
    case PromptJudge(j) => Judged(c, j)
    case PromptResolved(id) => Resolve(c, id)
    case BackgroundChanged(b) => c.(background := b)
    case QueueChanged(q) => c.(queue := Some(q))
    case _ => c.(content := Apply(c.content, e))
  }

  function Fold(c: Client, evs: seq<Event>): Client
    decreases |evs|
  {
    if evs == [] then c else Fold(Step(c, evs[0]), evs[1..])
  }

  lemma StepWellFormed(c: Client, e: Event)
    requires WellFormed(c)
    ensures WellFormed(Step(c, e))
  {
  }

  lemma {:induction false} FoldWellFormed(c: Client, evs: seq<Event>)
    requires WellFormed(c)
    ensures WellFormed(Fold(c, evs))
    decreases |evs|
  {
    if evs != [] {
      StepWellFormed(c, evs[0]);
      FoldWellFormed(Step(c, evs[0]), evs[1..]);
    }
  }

  lemma {:induction false} FoldConcat(c: Client, a: seq<Event>, b: seq<Event>)
    ensures Fold(c, a + b) == Fold(Fold(c, a), b)
    decreases |a|
  {
    if a == [] {
      assert a + b == b;
    } else {
      assert (a + b)[1..] == a[1..] + b;
      FoldConcat(Step(c, a[0]), a[1..], b);
    }
  }

  lemma FoldLast(c: Client, a: seq<Event>, e: Event)
    ensures Fold(c, a + [e]) == Step(Fold(c, a), e)
  {
    FoldConcat(c, a, [e]);
    assert Fold(Fold(c, a), [e]) == Fold(Step(Fold(c, a), e), [e][1..]);
  }
}

/** The conversation events of one session stream and the data they carry. */
module Events {

  datatype Option<+T> = None | Some(value: T)

  function Lookup<V>(m: map<string, V>, k: string): Option<V> { if k in m then Some(m[k]) else None }

  /** How a message records that its step ended; Malformed data records nothing. */
  datatype MessageData =
    | MessageData(finish: string, failed: bool, completed: int, rest: int)
    | Malformed(raw: int)

  datatype Message = Message(id: string, timeCreated: int, data: MessageData)

  /** A tool's output: streamed when it is a string. */
  datatype Output = NoOutput | StringOutput(text: string) | OtherOutput(value: int)

  /** A part's data: its three streamed values, its tool status and the rest. */
  datatype PartData = PartData(text: string, raw: string, output: Output, status: string, rest: int)

  datatype Part = Part(id: string, messageId: string, data: PartData)

  datatype Field = Text | ToolInput | ToolOutput

  datatype StatusKind = Done | Busy | Waiting | Error | Interrupted | Limited

  /** Absent leaves a notice unchanged, Cleared removes it. */
  datatype Notice = Absent | Cleared | Shown(notice: int)

  datatype Status = Status(kind: StatusKind, provisional: bool, notice: Notice, resetsAt: int)

  datatype Prompt = Prompt(id: string, sessionId: string, request: int)

  datatype Judge = Judge(promptId: string, phase: int)

  datatype Background = Background(count: int, tasks: seq<int>)

  datatype Event =
    | PartDelta(partId: string, field: Field, offset: int, text: string)
    | PartUpserted(part: Part, final: bool)
    | PartRemoved(partMessageId: string, removedPartId: string)
    | MessageUpserted(message: Message)
    | MessageRemoved(messageId: string)
    | StatusChanged(status: Status)
    | TurnStarted(startedAt: int)
    | TurnEnded(outcome: StatusKind, latest: string)
    | PromptAsked(prompt: Prompt)
    | PromptJudge(judge: Judge)
    | PromptResolved(promptId: string)
    | BackgroundChanged(background: Background)
    | QueueChanged(queue: seq<int>)
    | HistoryCommitted(revision: int)
    | HistoryRewritten(reason: int)
    | SessionInfo(info: int)     // title, children, changes, errors: no live state
    | StreamControl(control: int) // hello, reset, error, unknown

  predicate IsTurnEdge(e: Event) { e.TurnStarted? || e.TurnEnded? }

  /** Supersession keys of the replay log. */
  datatype Key =
    | NoKey
    | PartKey(partId: string)
    | PromptKey(promptId: string)
    | StatusKey
    | BackgroundKey
    | QueueKey
    | HistoryKey

  /** What an event supersedes in the log, and the key it is superseded under. */
  function Compaction(e: Event): (c: (seq<Key>, Key)) {
    match e
    case PartDelta(p, _, _, _) => ([], PartKey(p))
    case PartUpserted(p, final) => (if final then [PartKey(p.id)] else [], PartKey(p.id))
    case StatusChanged(_) => ([StatusKey], StatusKey)
    case BackgroundChanged(_) => ([BackgroundKey], BackgroundKey)
    case QueueChanged(_) => ([QueueKey], QueueKey)
    case HistoryCommitted(_) => ([HistoryKey], HistoryKey)
    case PromptAsked(p) => ([], PromptKey(p.id))
    case PromptJudge(j) => ([], PromptKey(j.promptId))
    case PromptResolved(id) => ([PromptKey(id)], NoKey)
    case _ => ([], NoKey)
  }

  /** At most one key, and never the absent one. */
  function Supersedes(e: Event): (ks: seq<Key>)
    ensures NoKey !in ks && |ks| <= 1
  {
    Compaction(e).0
  }

  function KeyOf(e: Event): Key { Compaction(e).1 }
}

/** The Chief Board: tasks, runs, asks, rules and the outbox of external effects, each
    collection keyed by id, and the validation every committed Board passes. */
module Boards {
  import opened Values
  import opened Graph

  datatype Access = Read | Write

  datatype TaskStatus = Queued | Running | Review | Done | Blocked | Cancelled | Merged

  /** A reason a member wrote, or one of the fixed sentences the policy writes itself. */
  datatype Reason =
    | Said(text: string) | WorkerFailed | WorkerCancelled | WorkerUnavailable
    | NetworkActionRejected | NetworkActionRefused | NetworkRejectionUnrepresentable

  predicate BoundedReason(reason: Option<Reason>) {
    reason.Some? && (reason.value.Said? ==> BoundedText(reason.value.text, 2000))
  }

  datatype Acceptance = Acceptance(revision: int, runId: Id, outcome: string, evidence: seq<FileRef>)

  datatype Task = Task(
    key: string, title: string, brief: string, access: Access,
    dependencies: seq<Id>, origin: Option<Id>,
    status: TaskStatus, evidence: seq<FileRef>,
    currentRun: Option<Id>, conversationId: Option<Id>, reason: Option<Reason>,
    mergedInto: Option<Id>, acceptance: Option<Acceptance>)

  datatype Progress = Progress(
    sequence: int, summary: string, next: string, artifacts: seq<FileRef>,
    blocker: Option<string>, source: Option<FileRef>)

  datatype RunStatus = Reserved | Queued | Running | Completed | Failed | Cancelled | Interrupted

  datatype Run = Run(
    taskId: Id, status: RunStatus, jobId: Option<Id>, conversationId: Option<Id>,
    report: Option<FileRef>, progress: Option<Progress>, observedSequence: int, reason: Option<Reason>)

  datatype Rule = Rule(when: string, instruction: string)

  datatype AskText = AskText(
    title: string, question: string, whyMember: string, ifUnasked: string, recommendation: string,
    options: seq<(string, string)>)

  datatype Source = Source(taskId: Id, runId: Id, conversationId: Id)

  datatype SourceKind = Chat | PageComment

  datatype MemberSource = MemberSource(kind: SourceKind, memberId: Id, conversationId: Id, messageId: Id)

  datatype Reply = Reply(source: MemberSource, text: string, decisionId: Id)

  datatype AskStatus = Open | Replied | Answered | Superseded | Dismissed

  datatype Ask = Ask(
    key: string, text: AskText, artifacts: seq<FileRef>, blocks: set<Id>, sources: seq<Source>,
    addressedTo: set<Id>, status: AskStatus, reply: Option<Reply>, resolution: Option<string>)

  datatype Conversation = Fresh | Continue(conversationId: Id)

  datatype WakeEvent = ResultEvent | BlockerEvent | DecisionEvent

  datatype Payload =
    | DispatchJob(runId: Id, taskId: Id, conversation: Conversation, prompt: string)
    | ControlJob(runId: Id, jobId: Id, steer: bool, text: string)
    | WakeChief(conversationId: Id, event: WakeEvent, entityId: Id)

  datatype Target = TasksTarget | RunsTarget

  /** The native request an attempt is bound to. */
  datatype Effect = Effect(request: Id, runId: string, target: Target, payload: Payload)

  datatype EntryStatus = Reserved | Attempted(attemptId: Id, effect: Effect)

  datatype Entry = Entry(payload: Payload, status: EntryStatus)

  datatype Checkpoint = Checkpoint(focus: string, nextActions: seq<string>)

  datatype Board = Board(
    conversationId: Id, revision: int,
    tasks: map<Id, Task>, runs: map<Id, Run>, asks: map<Id, Ask>, rules: map<Id, Rule>, outbox: map<Id, Entry>,
    history: Option<FileRef>, concurrencyLimit: Option<int>, checkpoint: Checkpoint, checkinMinutes: Option<int>)

  function EmptyBoard(conversationId: Id): Board {
    Board(conversationId, 0, map[], map[], map[], map[], map[], None, None, Checkpoint("", []), Some(10))
  }

  predicate IsLive(run: Run) {
    run.status.Reserved? || run.status.Queued? || run.status.Running?
  }

  predicate PendingAsk(ask: Ask) {
    ask.status.Open? || ask.status.Replied?
  }

  predicate NoLive(b: Board, taskId: Id) {
    forall r :: r in b.runs && b.runs[r].taskId == taskId ==> !IsLive(b.runs[r])
  }

  function NodeOf(task: Task): Node {
    Node(task.mergedInto, (set d | d in task.dependencies), task.origin)
  }

  function GraphOf(tasks: map<Id, Task>): Graph {
    map x | x in tasks :: NodeOf(tasks[x])
  }

  predicate DoneTask(tasks: map<Id, Task>, id: Id) {
    var c := Canonical(GraphOf(tasks), id);
    c.Ok? && c.value in tasks && tasks[c.value].status.Done?
  }

  predicate DependenciesDone(tasks: map<Id, Task>, task: Task) {
    forall d :: d in task.dependencies ==> DoneTask(tasks, d)
  }

  // -- Validation ---------------------------------------------------------------

  predicate ValidAcceptance(task: Task, a: Acceptance) {
    && (task.status.Done? || task.status.Merged?)
    && ValidRefs(a.evidence) && |a.evidence| > 0 && BoundedText(a.outcome, 2000)
    && 0 < a.revision <= MAX_SAFE && ValidId(a.runId)
    && forall ref :: ref in a.evidence ==> ref in task.evidence
  }

  predicate UniqueIds(ids: seq<Id>) {
    ids == [] || (ValidId(ids[0]) && ids[0] !in ids[1..] && UniqueIds(ids[1..]))
  }

  predicate ValidTask(id: Id, task: Task) {
    && ValidId(id) && BoundedText(task.key, 200) && BoundedText(task.title, 300) && BoundedText(task.brief, 12000)
    && (task.origin.Some? ==> ValidId(task.origin.value) && task.origin.value != id)
    && |task.dependencies| <= 64 && UniqueIds(task.dependencies)
    && ValidRefs(task.evidence)
    && (task.status.Blocked? ==> BoundedReason(task.reason))
    && (task.status.Merged? <==> task.mergedInto.Some?)
    && (task.status.Done? ==> task.acceptance.Some?)
    && (task.acceptance.Some? ==> ValidAcceptance(task, task.acceptance.value))
  }

  predicate EachTaskValid(tasks: map<Id, Task>) {
    forall id :: id in tasks ==> ValidTask(id, tasks[id])
  }

  predicate KeysUnique(tasks: map<Id, Task>) {
    forall x, y :: x in tasks && y in tasks && tasks[x].key == tasks[y].key ==> x == y
  }

  ghost predicate ValidGraph(g: Graph) {
    Resolves(g, g.Keys) && Sound(g)
  }

  ghost predicate ValidTasks(tasks: map<Id, Task>) {
    EachTaskValid(tasks) && KeysUnique(tasks) && ValidGraph(GraphOf(tasks))
  }

  predicate ValidProgress(p: Progress) {
    && 0 <= p.sequence <= MAX_SAFE && BoundedText(p.summary, 2000) && |p.next| <= 1200 && ValidRefs(p.artifacts)
    && (p.blocker.Some? ==> BoundedText(p.blocker.value, 1200))
    && (p.source.Some? ==> ValidRef(p.source.value))
  }

  predicate SoundRun(run: Run) {
    && -1 <= run.observedSequence <= MAX_SAFE
    && (run.status.Completed? ==> run.report.Some? && ValidRef(run.report.value))
    && (run.status.Interrupted? ==> BoundedReason(run.reason))
    && (run.progress.Some? ==> ValidProgress(run.progress.value))
  }

  /** A live run is its running task's current run, and everything that task waits for is done. */
  predicate ValidRun(tasks: map<Id, Task>, id: Id, run: Run) {
    && run.taskId in tasks && ValidId(id) && SoundRun(run)
    && (IsLive(run) ==>
         && tasks[run.taskId].status.Running? && tasks[run.taskId].currentRun == Some(id)
         && DependenciesDone(tasks, tasks[run.taskId]))
  }

  predicate ValidRuns(tasks: map<Id, Task>, runs: map<Id, Run>) {
    && (forall id :: id in runs ==> ValidRun(tasks, id, runs[id]))
    && (forall x, y :: x in runs && y in runs && IsLive(runs[x]) && IsLive(runs[y]) && runs[x].taskId == runs[y].taskId
          ==> x == y)
  }

  /** A running task has a live run, and a current run belongs to its task. */
  predicate ValidCurrent(tasks: map<Id, Task>, runs: map<Id, Run>) {
    forall id :: id in tasks ==>
      && (tasks[id].status.Running? ==> exists r :: r in runs && IsLive(runs[r]) && runs[r].taskId == id)
      && (tasks[id].currentRun.Some? ==>
           tasks[id].currentRun.value in runs && runs[tasks[id].currentRun.value].taskId == id)
  }

  predicate ValidAskText(t: AskText) {
    && BoundedText(t.title, 300) && BoundedText(t.question, 2000) && BoundedText(t.whyMember, 1000)
    && BoundedText(t.ifUnasked, 1000) && BoundedText(t.recommendation, 2000) && |t.options| <= 9
    && forall i :: 0 <= i < |t.options| ==> BoundedText(t.options[i].0, 200) && BoundedText(t.options[i].1, 500)
  }

  predicate ValidSource(runs: map<Id, Run>, ask: Ask, source: Source) {
    && (source.runId in runs || !PendingAsk(ask))
    && (source.runId in runs ==>
         && runs[source.runId].taskId == source.taskId
         && runs[source.runId].conversationId == Some(source.conversationId))
  }

  predicate ValidReply(ask: Ask, reply: Reply) {
    && ValidId(reply.source.memberId) && ValidId(reply.source.conversationId) && ValidId(reply.source.messageId)
    && ValidId(reply.decisionId) && BoundedText(reply.text, 4000)
    && reply.source.memberId in ask.addressedTo
  }

  predicate ValidAsk(tasks: map<Id, Task>, runs: map<Id, Run>, id: Id, ask: Ask) {
    && ValidId(id) && BoundedText(ask.key, 200) && ValidAskText(ask.text) && ValidRefs(ask.artifacts)
    && (forall x :: x in ask.blocks ==> ValidId(x) && x in tasks)
    && (forall x :: x in ask.addressedTo ==> ValidId(x)) && ask.addressedTo != {}
    && |ask.sources| <= 16 && (forall i :: 0 <= i < |ask.sources| ==> ValidSource(runs, ask, ask.sources[i]))
    && (ask.status.Replied? ==> ask.reply.Some?) && (ask.status.Open? ==> ask.reply.None?)
    && (ask.reply.Some? ==> ValidReply(ask, ask.reply.value))
  }

  predicate ValidAsks(tasks: map<Id, Task>, runs: map<Id, Run>, asks: map<Id, Ask>) {
    && (forall id :: id in asks ==> ValidAsk(tasks, runs, id, asks[id]))
    && (forall x, y :: x in asks && y in asks && PendingAsk(asks[x]) && PendingAsk(asks[y]) && asks[x].key == asks[y].key
          ==> x == y)
  }

  predicate ValidEntry(id: Id, entry: Entry) {
    && ValidId(id)
    && (entry.status.Attempted? ==>
         && ValidId(entry.status.attemptId) && BoundedText(entry.status.effect.runId, 1024)
         && entry.status.effect.target == if entry.payload.WakeChief? then RunsTarget else TasksTarget)
  }

  predicate ValidHeader(b: Board) {
    && ValidId(b.conversationId) && 0 <= b.revision <= MAX_SAFE
    && (b.concurrencyLimit.Some? ==> 0 < b.concurrencyLimit.value <= MAX_SAFE)
    && (b.checkinMinutes.Some? ==> 1 <= b.checkinMinutes.value <= 1440)
    && |b.checkpoint.focus| <= 4000 && |b.checkpoint.nextActions| <= 16
    && (forall i :: 0 <= i < |b.checkpoint.nextActions| ==> BoundedText(b.checkpoint.nextActions[i], 500))
    && (b.history.Some? ==> ValidRef(b.history.value))
  }

  predicate WithinCapacity(b: Board) {
    |b.tasks| <= 1000 && |b.runs| <= 5000 && |b.asks| <= 1000 && |b.rules| <= 100 && |b.outbox| <= 10000
  }

  predicate ValidRule(id: Id, rule: Rule) {
    ValidId(id) && BoundedText(rule.when, 1000) && BoundedText(rule.instruction, 2000)
  }

  ghost predicate Valid(b: Board) {
    && ValidHeader(b) && WithinCapacity(b)
    && ValidTasks(b.tasks)
    && ValidRuns(b.tasks, b.runs)
    && ValidCurrent(b.tasks, b.runs)
    && ValidAsks(b.tasks, b.runs, b.asks)
    && (forall id :: id in b.rules ==> ValidRule(id, b.rules[id]))
    && (forall id :: id in b.outbox ==> ValidEntry(id, b.outbox[id]))
  }
}

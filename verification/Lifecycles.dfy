/** What each record on the Board says after a change, field by field: what the change said about it, or what it said before. */
module Lifecycles {
  import opened Values
  import opened Boards
  import opened Policy

  function Or<V>(word: Option<V>, kept: V): V {
    if word.Some? then word.value else kept
  }

  // -- Whom a change is about ---------------------------------------------------------------

  predicate RunIsFor(b: Board, r: Id, t: Id) {
    r in b.runs && b.runs[r].taskId == t
  }

  /** The run whose dispatch an outbox entry is. */
  predicate Dispatches(b: Board, op: Id, r: Id) {
    op in b.outbox && b.outbox[op].payload.DispatchJob? && b.outbox[op].payload.runId == r
  }

  predicate DispatchesFor(b: Board, op: Id, t: Id) {
    op in b.outbox && b.outbox[op].payload.DispatchJob? && RunIsFor(b, b.outbox[op].payload.runId, t)
  }

  // -- Tasks ----------------------------------------------------------------------------------

  /** A task nothing was said about. */
  const BLANK: Task := Task("", "", "", Read, [], None, TaskStatus.Queued, [], None, None, None, None, None)

  function TaskBefore(b: Board, t: Id): Task {
    if t in b.tasks then b.tasks[t] else BLANK
  }

  function PutSaid(c: Change, t: Id): Option<TaskSpec> {
    if c.Decided? && c.action.TaskPut? && c.action.taskId == t then Some(c.action.task) else None
  }

  predicate Merges(c: Change) {
    c.Decided? && c.action.TaskMerge?
  }

  function StatusSaid(b: Board, c: Change, t: Id): Option<TaskStatus> {
    match c
    case Decided(SetTaskStatus(x, to, _)) =>
      if x != t then None
      else Some(match to case ToQueued => TaskStatus.Queued case ToBlocked => TaskStatus.Blocked case ToCancelled => TaskStatus.Cancelled)
    case Decided(TaskMerge(s, _)) => if s == t then Some(TaskStatus.Merged) else None
    case Decided(Accept(x, _, _)) => if x == t then Some(Done) else None
    case Dispatch(_, x, _, _) => if x == t then Some(TaskStatus.Running) else None
    case Acknowledged(Rejected(op, _)) => if DispatchesFor(b, op, t) then Some(TaskStatus.Blocked) else None
    case Provider(Settled(r, _, how, _), _) =>
      if RunIsFor(b, r, t) then Some(if how.AsCompleted? then Review else TaskStatus.Blocked) else None
    case Provider(Unavailable(r, _), _) => if RunIsFor(b, r, t) then Some(TaskStatus.Blocked) else None
    case _ => None
  }

  function RejectionReason(rejection: Rejection): Reason {
    match rejection
    case ActionRejected => NetworkActionRejected
    case ActionRefused => NetworkActionRefused
    case RejectionUnrepresentable => NetworkRejectionUnrepresentable
  }

  /** Why, whenever a task is stopped or moved by hand. */
  function ReasonSaid(b: Board, c: Change, t: Id): Option<Option<Reason>> {
    match c
    case Decided(SetTaskStatus(x, _, reason)) => if x == t then Some(Some(Said(reason))) else None
    case Acknowledged(Rejected(op, why)) => if DispatchesFor(b, op, t) then Some(Some(RejectionReason(why))) else None
    case Provider(Settled(r, _, how, _), _) =>
      if !RunIsFor(b, r, t) || how.AsCompleted? then None
      else Some(Some(if how.AsFailed? then WorkerFailed else WorkerCancelled))
    case Provider(Unavailable(r, _), _) => if RunIsFor(b, r, t) then Some(Some(WorkerUnavailable)) else None
    case _ => None
  }

  /** A dispatch names its run, and acceptance or a move by hand lets it go. */
  function CurrentSaid(c: Change, t: Id): Option<Option<Id>> {
    match c
    case Decided(SetTaskStatus(x, _, _)) => if x == t then Some(None) else None
    case Decided(Accept(x, _, _)) => if x == t then Some(None) else None
    case Dispatch(op, x, _, _) => if x == t then Some(Some(op)) else None
    case _ => None
  }

  function AcceptanceSaid(b: Board, c: Change, t: Id): Option<Option<Acceptance>> {
    match c
    case Decided(SetTaskStatus(x, _, _)) => if x == t then Some(None) else None
    case Decided(Accept(x, outcome, evidence)) =>
      if x == t && TaskBefore(b, t).currentRun.Some?
      then Some(Some(Acceptance(b.revision + 1, TaskBefore(b, t).currentRun.value, outcome, evidence))) else None
    case _ => None
  }

  function ConversationSaid(b: Board, c: Change, t: Id): Option<Option<Id>> {
    match c
    case Acknowledged(Dispatched(op, _, conversation)) => if DispatchesFor(b, op, t) then Some(Some(conversation)) else None
    case _ => None
  }

  /** A member's edit, the briefs of two tasks merged, or a steer applied to a live worker. */
  function BriefSaid(b: Board, c: Change, t: Id): Option<string> {
    match c
    case Decided(TaskPut(x, spec)) => if x == t then Some(spec.brief) else None
    case Decided(TaskMerge(s, x)) =>
      if x == t && s != t then Some(TaskBefore(b, t).brief + "\n\n" + TaskBefore(b, s).title + "\n" + TaskBefore(b, s).brief) else None
    case Acknowledged(Controlled(op, _, applied)) =>
      if applied && op in b.outbox && b.outbox[op].payload.ControlJob? && b.outbox[op].payload.steer
         && RunIsFor(b, b.outbox[op].payload.runId, t) && IsLive(b.runs[b.outbox[op].payload.runId])
      then Some(b.outbox[op].payload.text) else None
    case _ => None
  }

  function AccessSaid(b: Board, c: Change, t: Id): Option<Access> {
    match c
    case Decided(TaskPut(x, spec)) => if x == t then Some(spec.access) else None
    case Decided(TaskMerge(s, x)) => if x == t && s != t && TaskBefore(b, s).access.Write? then Some(Write) else None
    case _ => None
  }

  /** Evidence is only ever added: by acceptance here, and by merging. */
  predicate EvidenceFollows(b: Board, c: Change, t: Id, after: seq<FileRef>) {
    var before := TaskBefore(b, t).evidence;
    match c
    case Decided(Accept(x, _, evidence)) => if x == t then Gathers(after, before + evidence) else after == before
    case Decided(TaskMerge(s, x)) => if x == t && s != t then Gathers(after, before + TaskBefore(b, s).evidence) else after == before
    case _ => after == before
  }

  /** Every reference once, in the order they first occur. */
  predicate Gathers(refs: seq<FileRef>, all: seq<FileRef>) {
    InOrderOf(refs, all) && forall ref :: ref in all ==> ref in refs
  }

  /** What the task was told to be; merging rewires dependencies and origins. */
  predicate SpecFollows(b: Board, c: Change, t: Id, after: Task) {
    var before, put := TaskBefore(b, t), PutSaid(c, t);
    && after.key == (if put.Some? then put.value.key else before.key)
    && after.title == (if put.Some? then put.value.title else before.title)
    && (!Merges(c) ==>
          && after.dependencies == (if put.Some? then put.value.dependencies else before.dependencies)
          && after.origin == (if put.Some? && put.value.origin.Some? then put.value.origin else before.origin))
    && after.brief == Or(BriefSaid(b, c, t), before.brief)
    && after.access == Or(AccessSaid(b, c, t), before.access)
  }

  predicate StateFollows(b: Board, c: Change, t: Id, after: Task) {
    var before := TaskBefore(b, t);
    && after.status == Or(StatusSaid(b, c, t), before.status)
    && after.reason == Or(ReasonSaid(b, c, t), before.reason)
    && after.currentRun == Or(CurrentSaid(c, t), before.currentRun)
    && after.acceptance == Or(AcceptanceSaid(b, c, t), before.acceptance)
    && after.conversationId == Or(ConversationSaid(b, c, t), before.conversationId)
    && after.mergedInto == (if Merges(c) && c.action.sourceId == t then Some(c.action.targetId) else before.mergedInto)
    && EvidenceFollows(b, c, t, after.evidence)
  }

  predicate TaskFollows(b: Board, c: Change, t: Id, after: map<Id, Task>) {
    && (t in after <==> t in b.tasks || PutSaid(c, t).Some?)
    && (t in after ==> SpecFollows(b, c, t, after[t]) && StateFollows(b, c, t, after[t]))
  }

  /** Nothing is said about a task. */
  predicate Unsaid(b: Board, c: Change, t: Id) {
    && PutSaid(c, t).None? && StatusSaid(b, c, t).None? && ReasonSaid(b, c, t).None? && CurrentSaid(c, t).None?
    && AcceptanceSaid(b, c, t).None? && ConversationSaid(b, c, t).None? && BriefSaid(b, c, t).None? && AccessSaid(b, c, t).None?
    && !Merges(c) && !(c.Decided? && c.action.Accept? && c.action.taskId == t)
  }

  lemma UnsaidFollows(b: Board, c: Change, t: Id, after: map<Id, Task>)
    requires Unsaid(b, c, t) && (t in after <==> t in b.tasks) && (t in after ==> after[t] == b.tasks[t])
    ensures TaskFollows(b, c, t, after)
  {
  }

  lemma PutOne(b: Board, id: Id, spec: TaskSpec)
    requires PutTask(b, id, spec).Ok?
    ensures
      var task := PutTask(b, id, spec).value.tasks;
      id in task && task == b.tasks[id := task[id]] && task[id] == if id in b.tasks then Edited(b.tasks[id], spec) else Edited(BLANK, spec)
  {
  }

  lemma EditedFollows(b: Board, id: Id, spec: TaskSpec)
    ensures
      var after := b.tasks[id := Edited(TaskBefore(b, id), spec)];
      TaskFollows(b, Decided(TaskPut(id, spec)), id, after)
  {
  }

  lemma PutFollows(b: Board, id: Id, spec: TaskSpec, t: Id)
    requires PutTask(b, id, spec).Ok?
    ensures TaskFollows(b, Decided(TaskPut(id, spec)), t, PutTask(b, id, spec).value.tasks)
  {
    PutOne(b, id, spec);
    if t == id {
      EditedFollows(b, id, spec);
    } else {
      UnsaidFollows(b, Decided(TaskPut(id, spec)), t, PutTask(b, id, spec).value.tasks);
    }
  }

  lemma SetStatusFollows(b: Board, id: Id, to: Reopen, reason: string, t: Id)
    requires SetStatus(b, id, to, reason).Ok?
    ensures TaskFollows(b, Decided(SetTaskStatus(id, to, reason)), t, SetStatus(b, id, to, reason).value.tasks)
  {
  }

  lemma MergeFollows(b: Board, s: Id, t: Id, x: Id)
    requires MergeTasks(b, s, t).Ok?
    ensures TaskFollows(b, Decided(TaskMerge(s, t)), x, MergeTasks(b, s, t).value.tasks)
  {
    if x == t {
      SurvivorFollows(b, s, t);
    }
  }

  /** The survivor of a merge, but for where it came from and what it waits for. */
  predicate Survivor(b: Board, s: Id, t: Id, task: Task)
    requires s in b.tasks && t in b.tasks
  {
    task == b.tasks[t].(brief := b.tasks[t].brief + "\n\n" + b.tasks[s].title + "\n" + b.tasks[s].brief,
                        evidence := Dedup(b.tasks[t].evidence + b.tasks[s].evidence),
                        access := if b.tasks[s].access.Write? then Write else b.tasks[t].access,
                        dependencies := task.dependencies, origin := task.origin)
  }

  lemma MergeSurvivor(b: Board, s: Id, t: Id)
    requires MergeTasks(b, s, t).Ok?
    ensures s in b.tasks && t in b.tasks && s != t
    ensures t in MergeTasks(b, s, t).value.tasks && Survivor(b, s, t, MergeTasks(b, s, t).value.tasks[t])
  {
    assert MergeTasks(b, s, t).value.tasks[t] == MergedTask(b.tasks, s, t, t);
  }

  lemma SurvivorSpec(b: Board, s: Id, t: Id, task: Task)
    requires s in b.tasks && t in b.tasks && s != t && Survivor(b, s, t, task)
    ensures SpecFollows(b, Decided(TaskMerge(s, t)), t, task)
  {
  }

  lemma SurvivorState(b: Board, s: Id, t: Id, task: Task)
    requires s in b.tasks && t in b.tasks && s != t && Survivor(b, s, t, task)
    ensures StateFollows(b, Decided(TaskMerge(s, t)), t, task)
  {
    DedupInOrder(b.tasks[t].evidence + b.tasks[s].evidence);
  }

  lemma SurvivorFollows(b: Board, s: Id, t: Id)
    requires MergeTasks(b, s, t).Ok?
    ensures TaskFollows(b, Decided(TaskMerge(s, t)), t, MergeTasks(b, s, t).value.tasks)
  {
    MergeSurvivor(b, s, t);
    SurvivorSpec(b, s, t, MergeTasks(b, s, t).value.tasks[t]);
    SurvivorState(b, s, t, MergeTasks(b, s, t).value.tasks[t]);
  }

  lemma AcceptFollows(b: Board, id: Id, outcome: string, evidence: seq<FileRef>, t: Id)
    requires AcceptTask(b, id, outcome, evidence).Ok?
    ensures TaskFollows(b, Decided(Accept(id, outcome, evidence)), t, AcceptTask(b, id, outcome, evidence).value.tasks)
  {
    DedupInOrder(b.tasks[id].evidence + evidence);
  }

  lemma DecideFollows(b: Board, action: Action, t: Id)
    requires Decide(b, action).Ok?
    ensures TaskFollows(b, Decided(action), t, Decide(b, action).value.tasks)
  {
    match action
    case TaskPut(id, task) => PutFollows(b, id, task, t);
    case SetTaskStatus(id, to, reason) => SetStatusFollows(b, id, to, reason, t);
    case TaskMerge(x, y) => MergeFollows(b, x, y, t);
    case Accept(id, outcome, evidence) => AcceptFollows(b, id, outcome, evidence, t);
    case _ =>
      assert Decide(b, action).value.tasks == b.tasks;
      UnsaidFollows(b, Decided(action), t, b.tasks);
  }

  lemma DispatchFollows(b: Board, op: Id, x: Id, anew: bool, prompt: string, t: Id)
    requires ReserveRun(b, op, x, anew, prompt).Ok?
    ensures TaskFollows(b, Dispatch(op, x, anew, prompt), t, ReserveRun(b, op, x, anew, prompt).value.tasks)
  {
    var after := ReserveRun(b, op, x, anew, prompt).value.tasks;
    assert after == b.tasks[x := b.tasks[x].(status := TaskStatus.Running, currentRun := Some(op))];
    if t != x {
      UnsaidFollows(b, Dispatch(op, x, anew, prompt), t, after);
    }
  }

  lemma DispatchedFollows(b: Board, op: Id, jobId: Id, conversation: Id, t: Id)
    requires Acknowledge(b, Dispatched(op, jobId, conversation)).Ok? && DispatchesFor(b, op, t)
    ensures TaskFollows(b, Acknowledged(Dispatched(op, jobId, conversation)), t, Acknowledge(b, Dispatched(op, jobId, conversation)).value.tasks)
  {
  }

  lemma RejectedFollows(b: Board, op: Id, why: Rejection, t: Id)
    requires Acknowledge(b, Rejected(op, why)).Ok? && DispatchesFor(b, op, t)
    ensures TaskFollows(b, Acknowledged(Rejected(op, why)), t, Acknowledge(b, Rejected(op, why)).value.tasks)
  {
  }

  lemma ControlledFollows(b: Board, op: Id, jobId: Id, applied: bool, t: Id)
    requires Acknowledge(b, Controlled(op, jobId, applied)).Ok?
    ensures TaskFollows(b, Acknowledged(Controlled(op, jobId, applied)), t, Acknowledge(b, Controlled(op, jobId, applied)).value.tasks)
  {
  }

  /** A receipt is about the task whose dispatch or steer it answers. */
  lemma ReceiptKeepsOthers(b: Board, receipt: EffectReceipt, t: Id)
    requires Acknowledge(b, receipt).Ok? && !receipt.Controlled? && !DispatchesFor(b, receipt.operationId, t)
    ensures
      var after := Acknowledge(b, receipt).value.tasks;
      (t in after <==> t in b.tasks) && (t in after ==> after[t] == b.tasks[t])
  {
  }

  lemma AcknowledgeFollows(b: Board, receipt: EffectReceipt, t: Id)
    requires Acknowledge(b, receipt).Ok?
    ensures TaskFollows(b, Acknowledged(receipt), t, Acknowledge(b, receipt).value.tasks)
  {
    if receipt.Controlled? {
      ControlledFollows(b, receipt.operationId, receipt.jobId, receipt.applied, t);
    } else if !DispatchesFor(b, receipt.operationId, t) {
      ReceiptKeepsOthers(b, receipt, t);
      UnsaidFollows(b, Acknowledged(receipt), t, Acknowledge(b, receipt).value.tasks);
    } else if receipt.Dispatched? {
      DispatchedFollows(b, receipt.operationId, receipt.jobId, receipt.conversationId, t);
    } else {
      RejectedFollows(b, receipt.operationId, receipt.reason, t);
    }
  }

  lemma SettledFollows(b: Board, r: Id, job: Id, how: Settlement, report: FileRef, wake: Option<Wake>, t: Id)
    requires SaveResult(b, r, job, how, report).Ok? && RunIsFor(b, r, t)
    ensures TaskFollows(b, Provider(Settled(r, job, how, report), wake), t, SaveResult(b, r, job, how, report).value.tasks)
  {
  }

  lemma UnavailableFollows(b: Board, r: Id, job: Id, wake: Option<Wake>, t: Id)
    requires MarkUnavailable(b, r, job).Ok? && RunIsFor(b, r, t)
    ensures TaskFollows(b, Provider(Unavailable(r, job), wake), t, MarkUnavailable(b, r, job).value.tasks)
  {
  }

  predicate Settles(event: Event) {
    event.Settled? || event.Unavailable?
  }

  lemma EventKeepsOthers(b: Board, event: Event, t: Id)
    requires SaveEvent(b, event).Ok? && !(Settles(event) && RunIsFor(b, event.runId, t))
    ensures
      var after := SaveEvent(b, event).value.tasks;
      (t in after <==> t in b.tasks) && (t in after ==> after[t] == b.tasks[t])
  {
  }

  lemma EventFollows(b: Board, event: Event, wake: Option<Wake>, t: Id)
    requires SaveEvent(b, event).Ok?
    ensures TaskFollows(b, Provider(event, wake), t, SaveEvent(b, event).value.tasks)
  {
    if !(Settles(event) && RunIsFor(b, event.runId, t)) {
      EventKeepsOthers(b, event, t);
      UnsaidFollows(b, Provider(event, wake), t, SaveEvent(b, event).value.tasks);
    } else if event.Settled? {
      SettledFollows(b, event.runId, event.jobId, event.settlement, event.report, wake, t);
    } else {
      UnavailableFollows(b, event.runId, event.jobId, wake, t);
    }
  }

  /** What every task says after a change. */
  lemma TransformTasks(b: Board, c: Change, t: Id)
    requires Transform(b, c).Ok?
    ensures TaskFollows(b, c, t, Transform(b, c).value.tasks)
  {
    match c
    case Decided(action) => DecideFollows(b, action, t);
    case Dispatch(op, x, anew, prompt) => DispatchFollows(b, op, x, anew, prompt, t);
    case Acknowledged(receipt) => AcknowledgeFollows(b, receipt, t);
    case Provider(event, wake) => EventFollows(b, event, wake, t);
    case _ =>
  }
}

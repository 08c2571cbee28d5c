/** Every policy transition of the Board, as a step that answers a new Board or refuses. */
module Policy {
  import opened Values
  import opened Graph
  import opened Merge
  import opened Boards

  datatype TaskSpec = TaskSpec(
    key: string, title: string, brief: string, access: Access, dependencies: seq<Id>, origin: Option<Id>)

  datatype AskSpec = AskSpec(
    key: string, text: AskText, artifacts: seq<FileRef>, blocks: set<Id>, sources: seq<Source>, addressedTo: set<Id>)

  datatype Reopen = ToQueued | ToBlocked | ToCancelled

  datatype Resolve = AsAnswered | AsSuperseded | AsDismissed

  datatype Action =
    | TaskPut(taskId: Id, task: TaskSpec)
    | SetTaskStatus(taskId: Id, to: Reopen, reason: string)
    | TaskMerge(sourceId: Id, targetId: Id)
    | Accept(taskId: Id, outcome: string, evidence: seq<FileRef>)
    | AskOpen(askId: Id, ask: AskSpec)
    | AskResolve(askId: Id, how: Resolve, resolution: string)
    | RulePut(ruleId: Id, rule: Rule)
    | RuleRemove(ruleId: Id)
    | SetLimit(limit: Option<int>)
    | SetCheckpoint(checkpoint: Checkpoint)
    | SetCheckin(minutes: Option<int>)

  // -- Tasks --------------------------------------------------------------------

  function ReplaceTask(b: Board, id: Id, task: Task): Board {
    b.(tasks := b.tasks[id := task])
  }

  function ReplaceRun(b: Board, id: Id, run: Run): Board {
    b.(runs := b.runs[id := run])
  }

  /** The spec changes where the task came from, and nothing else. */
  predicate OnlyProvenance(task: Task, spec: TaskSpec) {
    && spec.key == task.key && spec.title == task.title && spec.brief == task.brief && spec.access == task.access
    && spec.dependencies == task.dependencies && spec.origin.Some? && spec.origin != task.origin
  }

  function Edited(task: Task, spec: TaskSpec): Task {
    task.(key := spec.key, title := spec.title, brief := spec.brief, access := spec.access,
          dependencies := spec.dependencies, origin := if spec.origin.Some? then spec.origin else task.origin)
  }

  function PutTask(b: Board, id: Id, spec: TaskSpec): Outcome<Board> {
    var _ :- Need(forall x :: x in b.tasks && b.tasks[x].key == spec.key ==> x == id, CanonicalKeyExists);
    if id !in b.tasks then
      Ok(ReplaceTask(b, id, Task(spec.key, spec.title, spec.brief, spec.access, spec.dependencies, spec.origin,
                                 TaskStatus.Queued, [], None, None, None, None, None)))
    else
      var existing := b.tasks[id];
      var _ :- Need(!existing.status.Merged?, MergedTerminal);
      // Provenance is a coordination record: correcting it needs neither a reopened task nor a stopped worker.
      var _ :- Need(OnlyProvenance(existing, spec) || NoLive(b, id), LiveWorker);
      var _ :- Need(OnlyProvenance(existing, spec) || existing.status.Queued? || existing.status.Blocked?, ReopenBeforeEdit);
      Ok(ReplaceTask(b, id, Edited(existing, spec)))
  }

  function SetStatus(b: Board, id: Id, to: Reopen, reason: string): Outcome<Board> {
    var _ :- Need(id in b.tasks, UnknownTask);
    var task := b.tasks[id];
    var _ :- Need(NoLive(b, id), LiveWorker);
    var _ :- Need(!task.status.Merged?, MergedTerminal);
    var status := match to
      case ToQueued => TaskStatus.Queued
      case ToBlocked => TaskStatus.Blocked
      case ToCancelled => TaskStatus.Cancelled;
    Ok(ReplaceTask(b, id, task.(status := status, reason := Some(Said(reason)), acceptance := None, currentRun := None)))
  }

  function Dedup<T(==,!new)>(s: seq<T>): (r: seq<T>)
    ensures forall x :: x in r <==> x in s
    ensures forall i, j :: 0 <= i < j < |r| ==> r[i] != r[j]
  {
    if s == [] then []
    else
      var head := Dedup(s[..|s| - 1]);
      var last := s[|s| - 1];
      assert s == s[..|s| - 1] + [last];
      if last in head then head else head + [last]
  }

  /** Where a value first occurs. */
  function First<T(==)>(s: seq<T>, x: T): (n: nat)
    requires x in s
    ensures n < |s| && s[n] == x && x !in s[..n]
  {
    if s[0] == x then 0
    else
      assert s == [s[0]] + s[1..];
      var n := First(s[1..], x);
      assert s[..n + 1] == [s[0]] + s[1..][..n];
      n + 1
  }

  /** The values of `r`, all from `s`, stand in the order in which they first occur there. */
  predicate InOrderOf<T(==)>(r: seq<T>, s: seq<T>) {
    && (forall i :: 0 <= i < |r| ==> r[i] in s)
    && forall i, j :: 0 <= i < j < |r| ==> First(s, r[i]) < First(s, r[j])
  }

  lemma {:induction false} FirstInPrefix<T>(s: seq<T>, last: T, x: T)
    requires x in s
    ensures x in s + [last] && First(s + [last], x) == First(s, x)
  {
    if s[0] != x {
      assert s == [s[0]] + s[1..] && (s + [last])[1..] == s[1..] + [last];
      FirstInPrefix(s[1..], last, x);
    }
  }

  lemma {:induction false} DedupInOrder<T(!new)>(s: seq<T>)
    ensures InOrderOf(Dedup(s), s)
  {
    if s != [] {
      var init, last := s[..|s| - 1], s[|s| - 1];
      var head := Dedup(init);
      DedupInOrder(init);
      assert s == init + [last];
      forall i | 0 <= i < |head|
        ensures head[i] in s && First(s, head[i]) == First(init, head[i])
      {
        assert head[i] in init;
        FirstInPrefix(init, last, head[i]);
      }
      if last !in head {
        assert s[..|init|] == init && First(s, last) == |init|;
      }
    }
  }

  function Redirected(g: Graph, s: Id, t: Id, ids: seq<Id>): seq<Id> {
    seq(|ids|, i requires 0 <= i < |ids| => Redirect(g, s, t, ids[i]))
  }

  function RewireIds(g: Graph, s: Id, t: Id, ids: seq<Id>, owner: Id): seq<Id> {
    KeepOthers(g, Dedup(Redirected(g, s, t, ids)), owner)
  }

  function KeepOthers(g: Graph, ids: seq<Id>, owner: Id): (r: seq<Id>)
    ensures forall x :: x in r <==> x in ids && Canonical(g, x) != Ok(owner)
  {
    if ids == [] then []
    else
      var rest := KeepOthers(g, ids[1..], owner);
      assert ids == [ids[0]] + ids[1..];
      if Canonical(g, ids[0]) == Ok(owner) then rest else [ids[0]] + rest
  }

  lemma FirstOfMore<T>(x: T, rest: seq<T>, s: seq<T>)
    requires x in s && InOrderOf(rest, s) && forall j :: 0 <= j < |rest| ==> First(s, x) < First(s, rest[j])
    ensures InOrderOf([x] + rest, s)
  {
  }

  lemma LaterInOrder<T>(ids: seq<T>, s: seq<T>, x: T)
    requires ids != [] && InOrderOf(ids, s) && x in ids[1..]
    ensures InOrderOf(ids[1..], s) && First(s, ids[0]) < First(s, x)
  {
  }

  lemma {:induction false} KeptInOrder(g: Graph, ids: seq<Id>, owner: Id, s: seq<Id>)
    requires InOrderOf(ids, s)
    ensures InOrderOf(KeepOthers(g, ids, owner), s)
  {
    if ids != [] {
      var rest := KeepOthers(g, ids[1..], owner);
      assert InOrderOf(ids[1..], s);
      KeptInOrder(g, ids[1..], owner, s);
      forall j | 0 <= j < |rest|
        ensures First(s, ids[0]) < First(s, rest[j])
      {
        LaterInOrder(ids, s, rest[j]);
      }
      FirstOfMore(ids[0], rest, s);
    }
  }

  /** Rewired ids are the redirected ones that do not stand for the owner, each once, in the order they first occur. */
  lemma RewiredInOrder(g: Graph, s: Id, t: Id, ids: seq<Id>, owner: Id)
    ensures InOrderOf(RewireIds(g, s, t, ids, owner), Redirected(g, s, t, ids))
    ensures forall x :: x in RewireIds(g, s, t, ids, owner) <==>
                        x in Redirected(g, s, t, ids) && Canonical(g, x) != Ok(owner)
  {
    var redirected := Redirected(g, s, t, ids);
    DedupInOrder(redirected);
    KeptInOrder(g, Dedup(redirected), owner, redirected);
  }

  /** Every id the merge has to look up can be resolved. */
  predicate Lookups(g: Graph) {
    OriginsResolve(g) && forall x :: x in g ==> Resolves(g, g[x].dependencies)
  }

  function MergedTask(tasks: map<Id, Task>, s: Id, t: Id, x: Id): Task
    requires s in tasks && t in tasks && x in tasks && OriginsResolve(GraphOf(tasks))
  {
    var g := GraphOf(tasks);
    var source, target, task := tasks[s], tasks[t], tasks[x];
    if x == s then task.(status := TaskStatus.Merged, mergedInto := Some(t))
    else if x == t then
      task.(brief := target.brief + "\n\n" + source.title + "\n" + source.brief,
            evidence := Dedup(target.evidence + source.evidence),
            access := if source.access.Write? then Write else target.access,
            dependencies := RewireIds(g, s, t, target.dependencies + source.dependencies, t),
            origin := SurvivingOrigin(g, s, t, if g[t].origin.Some? then g[t].origin else g[s].origin, t, {}))
    else
      task.(dependencies := RewireIds(g, s, t, task.dependencies, x),
            origin := SurvivingOrigin(g, s, t, g[x].origin, x, {}))
  }

  function MergeTasks(b: Board, s: Id, t: Id): Outcome<Board> {
    var _ :- Need(s in b.tasks && t in b.tasks, UnknownTask);
    var target := b.tasks[t];
    var _ :- Need(s != t && !b.tasks[s].status.Merged? && (target.status.Queued? || target.status.Blocked?),
                  InvalidMergeTarget);
    var _ :- Need(NoLive(b, s) && NoLive(b, t), LiveWorker);
    var _ :- Need(Lookups(GraphOf(b.tasks)), UnknownTask);
    Ok(b.(tasks := map x | x in b.tasks :: MergedTask(b.tasks, s, t, x)))
  }

  function AcceptTask(b: Board, id: Id, outcome: string, evidence: seq<FileRef>): Outcome<Board> {
    var _ :- Need(id in b.tasks, UnknownTask);
    var task := b.tasks[id];
    var _ :- Need(NoLive(b, id), LiveWorker);
    var _ :- Need(task.status.Review? && ValidRefs(evidence) && |evidence| > 0 && BoundedText(outcome, 2000),
                  ReviewEvidenceRequired);
    var _ :- Need(task.currentRun.Some?, ReviewRunRequired);
    Ok(ReplaceTask(b, id, task.(status := TaskStatus.Done, currentRun := None,
                                evidence := Dedup(task.evidence + evidence),
                                acceptance := Some(Acceptance(b.revision + 1, task.currentRun.value, outcome, evidence)))))
  }

  // -- Asks and rules -------------------------------------------------------------

  function OpenAsk(b: Board, id: Id, spec: AskSpec): Outcome<Board> {
    var _ :- Need(id !in b.asks, DuplicateId);
    Ok(b.(asks := b.asks[id := Ask(spec.key, spec.text, spec.artifacts, spec.blocks, spec.sources, spec.addressedTo,
                                   Open, None, None)]))
  }

  function ResolveAsk(b: Board, id: Id, how: Resolve, resolution: string): Outcome<Board> {
    var _ :- Need(id in b.asks, UnknownAsk);
    var ask := b.asks[id];
    var _ :- Need(PendingAsk(ask) && BoundedText(resolution, 4000), AskAlreadyResolved);
    var _ :- Need(how.AsAnswered? ==> ask.status.Replied?, MemberReplyRequired);
    var status := match how
      case AsAnswered => Answered
      case AsSuperseded => Superseded
      case AsDismissed => Dismissed;
    Ok(b.(asks := b.asks[id := ask.(status := status, resolution := Some(resolution))]))
  }

  function Decide(b: Board, action: Action): Outcome<Board> {
    match action
    case TaskPut(id, task) => PutTask(b, id, task)
    case SetTaskStatus(id, to, reason) => SetStatus(b, id, to, reason)
    case TaskMerge(s, t) => MergeTasks(b, s, t)
    case Accept(id, outcome, evidence) => AcceptTask(b, id, outcome, evidence)
    case AskOpen(id, ask) => OpenAsk(b, id, ask)
    case AskResolve(id, how, resolution) => ResolveAsk(b, id, how, resolution)
    case RulePut(id, rule) => Ok(b.(rules := b.rules[id := rule]))
    case RuleRemove(id) => Ok(b.(rules := b.rules - {id}))
    case SetLimit(limit) => Ok(b.(concurrencyLimit := limit))
    case SetCheckpoint(checkpoint) => Ok(b.(checkpoint := checkpoint))
    case SetCheckin(minutes) => Ok(b.(checkinMinutes := minutes))
  }

  // -- Reserve, attempt, acknowledge ------------------------------------------------

  function LiveRuns(b: Board): set<Id> {
    set r | r in b.runs && IsLive(b.runs[r])
  }

  predicate BlockedByAsk(b: Board, taskId: Id) {
    exists a, x :: a in b.asks && PendingAsk(b.asks[a]) && x in b.asks[a].blocks
                   && Canonical(GraphOf(b.tasks), x) == Ok(taskId)
  }

  /** Dispatch: the task starts running under a run named by the operation, with its effect in the outbox. */
  function ReserveRun(b: Board, op: Id, taskId: Id, anew: bool, prompt: string): Outcome<Board> {
    var _ :- Need(taskId in b.tasks, UnknownTask);
    var task := b.tasks[taskId];
    var history := exists r :: r in b.runs && b.runs[r].taskId == taskId;
    var _ :- Need(anew || !history || task.conversationId.Some?, RetainedConversationUnavailable);
    var conversation := if !anew && task.conversationId.Some? then Continue(task.conversationId.value) else Fresh;
    var _ :- Need(NoLive(b, taskId), LiveWorker);
    var _ :- Need(task.status.Queued? && DependenciesDone(b.tasks, task), TaskNotReady);
    var _ :- Need(!BlockedByAsk(b, taskId), PendingDecision);
    var _ :- Need(b.concurrencyLimit.None? || |LiveRuns(b)| < b.concurrencyLimit.value, ConcurrencyLimit);
    var _ :- Need(op !in b.runs && op !in b.outbox, DuplicateId);
    Ok(StartRun(b, op, taskId, conversation, prompt))
  }

  function StartRun(b: Board, op: Id, taskId: Id, conversation: Conversation, prompt: string): Board
    requires taskId in b.tasks
  {
    b.(tasks := b.tasks[taskId := b.tasks[taskId].(status := TaskStatus.Running, currentRun := Some(op))],
       runs := b.runs[op := Run(taskId, RunStatus.Reserved, None, None, None, None, -1, None)],
       outbox := b.outbox[op := Entry(DispatchJob(op, taskId, conversation, prompt), EntryStatus.Reserved)])
  }

  function ReserveControl(b: Board, op: Id, runId: Id, steer: bool, text: string): Outcome<Board> {
    var _ :- Need(runId in b.runs, UnknownRun);
    var run := b.runs[runId];
    var _ :- Need(run.jobId.Some? && IsLive(run) && BoundedText(text, 12000), WorkerNotAddressable);
    var _ :- Need(op !in b.outbox, DuplicateId);
    Ok(b.(outbox := b.outbox[op := Entry(ControlJob(runId, run.jobId.value, steer, text), EntryStatus.Reserved)]))
  }

  function MarkAttempted(b: Board, op: Id, attemptId: Id, effect: Effect): Outcome<Board> {
    var _ :- Need(op in b.outbox && b.outbox[op].status.Reserved?, AlreadyAttempted);
    Ok(b.(outbox := b.outbox[op := b.outbox[op].(status := Attempted(attemptId, effect))]))
  }

  datatype Rejection = ActionRejected | ActionRefused | RejectionUnrepresentable

  datatype EffectReceipt =
    | Dispatched(operationId: Id, jobId: Id, conversationId: Id)
    | Controlled(operationId: Id, jobId: Id, applied: bool)
    | Woken(operationId: Id, inboxId: Id)
    | Rejected(operationId: Id, reason: Rejection)

  function DispatchReceipt(b: Board, payload: Payload, jobId: Id, conversationId: Id): Outcome<Board> {
    var _ :- Need(payload.DispatchJob?, WrongReceiptKind);
    var _ :- Need(payload.runId in b.runs, UnknownRun);
    var run := b.runs[payload.runId];
    var _ :- Need(ValidId(jobId) && ValidId(conversationId), InvalidJobReceipt);
    var _ :- Need(payload.conversation.Fresh? || payload.conversation.conversationId == conversationId,
                  WrongRetainedConversation);
    var _ :- Need(run.jobId.None? || run.jobId.value == jobId, WrongJobReceipt);
    var _ :- Need(run.taskId in b.tasks, UnknownTask);
    var next := ReplaceRun(b, payload.runId,
                           run.(jobId := Some(jobId), conversationId := Some(conversationId), status := RunStatus.Queued));
    Ok(ReplaceTask(next, run.taskId, b.tasks[run.taskId].(conversationId := Some(conversationId))))
  }

  function RejectedReceipt(b: Board, payload: Payload, rejection: Rejection): Outcome<Board> {
    if !payload.DispatchJob? then Ok(b)
    else
      var reason := match rejection
        case ActionRejected => NetworkActionRejected
        case ActionRefused => NetworkActionRefused
        case RejectionUnrepresentable => NetworkRejectionUnrepresentable;
      var _ :- Need(payload.runId in b.runs, UnknownRun);
      var run := b.runs[payload.runId];
      var _ :- Need(run.taskId in b.tasks, UnknownTask);
      var next := ReplaceRun(b, payload.runId, run.(status := RunStatus.Failed, reason := Some(reason)));
      Ok(ReplaceTask(next, run.taskId, b.tasks[run.taskId].(status := TaskStatus.Blocked, reason := Some(reason))))
  }

  function ControlReceipt(b: Board, payload: Payload, jobId: Id, applied: bool): Outcome<Board> {
    var _ :- Need(payload.ControlJob?, WrongReceiptKind);
    var _ :- Need(payload.jobId == jobId, WrongJobReceipt);
    if !applied || !payload.steer then Ok(b)
    else
      var _ :- Need(payload.runId in b.runs, UnknownRun);
      var run := b.runs[payload.runId];
      if !IsLive(run) then Ok(b)
      else
        var _ :- Need(run.taskId in b.tasks, UnknownTask);
        Ok(ReplaceTask(b, run.taskId, b.tasks[run.taskId].(brief := payload.text)))
  }

  function ApplyReceipt(b: Board, payload: Payload, receipt: EffectReceipt): Outcome<Board> {
    match receipt
    case Dispatched(_, jobId, conversationId) => DispatchReceipt(b, payload, jobId, conversationId)
    case Controlled(_, jobId, applied) => ControlReceipt(b, payload, jobId, applied)
    case Woken(_, _) => if payload.WakeChief? then Ok(b) else Refused(WrongReceiptKind)
    case Rejected(_, reason) => RejectedReceipt(b, payload, reason)
  }

  function Acknowledge(b: Board, receipt: EffectReceipt): Outcome<Board> {
    var op := receipt.operationId;
    var _ :- Need(op in b.outbox, UnknownOperation);
    var _ :- Need(b.outbox[op].status.Attempted?, ReceiptWithoutAttempt);
    var next :- ApplyReceipt(b, b.outbox[op].payload, receipt);
    Ok(next.(outbox := next.outbox - {op}))
  }

  // -- Provider events ------------------------------------------------------------

  function SaveProgress(b: Board, runId: Id, jobId: Id, progress: Progress): Outcome<Board> {
    var _ :- Need(ValidProgress(progress), InvalidProgress);
    var _ :- Need(runId in b.runs, UnknownRun);
    var run := b.runs[runId];
    var _ :- Need(run.jobId == Some(jobId), WrongJob);
    if progress.sequence <= run.observedSequence then Ok(b)
    else
      var _ :- Need(IsLive(run), TerminalRun);
      var meaningful := run.progress.None?
        || run.progress.value.(sequence := 0, source := None) != progress.(sequence := 0, source := None);
      var next := if meaningful then progress else run.progress.value.(source := progress.source);
      Ok(ReplaceRun(b, runId, run.(status := RunStatus.Running, observedSequence := progress.sequence, progress := Some(next))))
  }

  function SaveReportClaim(b: Board, runId: Id, jobId: Id, report: FileRef): Outcome<Board> {
    var _ :- Need(runId in b.runs, UnknownRun);
    var run := b.runs[runId];
    var _ :- Need(run.jobId == Some(jobId) && IsLive(run) && ValidRef(report), InvalidResult);
    Ok(ReplaceRun(b, runId, run.(report := Some(report))))
  }

  datatype Settlement = AsCompleted | AsFailed | AsCancelled

  function SaveResult(b: Board, runId: Id, jobId: Id, settlement: Settlement, report: FileRef): Outcome<Board> {
    var _ :- Need(runId in b.runs, UnknownRun);
    var run := b.runs[runId];
    var _ :- Need(run.jobId == Some(jobId) && IsLive(run) && ValidRef(report), InvalidResult);
    var _ :- Need(run.taskId in b.tasks, UnknownTask);
    Ok(ReplaceTask(ReplaceRun(b, runId, run.(status := SettledStatus(settlement), report := Some(report))),
                   run.taskId, SettledTask(b.tasks[run.taskId], settlement)))
  }

  function SettledStatus(settlement: Settlement): RunStatus {
    match settlement
    case AsCompleted => RunStatus.Completed
    case AsFailed => RunStatus.Failed
    case AsCancelled => RunStatus.Cancelled
  }

  function SettledTask(task: Task, settlement: Settlement): Task {
    match settlement
    case AsCompleted => task.(status := TaskStatus.Review)
    case AsFailed => task.(status := TaskStatus.Blocked, reason := Some(WorkerFailed))
    case AsCancelled => task.(status := TaskStatus.Blocked, reason := Some(WorkerCancelled))
  }

  function SaveDecision(b: Board, askId: Id, reply: Reply): Outcome<Board> {
    var _ :- Need(askId in b.asks, UnknownAsk);
    var ask := b.asks[askId];
    var _ :- Need(ask.status.Open? && ask.reply.None?, ReplyAlreadySaved);
    var _ :- Need(reply.source.memberId in ask.addressedTo, WrongMember);
    var _ :- Need(reply.source.conversationId == b.conversationId, WrongDecisionConversation);
    Ok(b.(asks := b.asks[askId := ask.(status := Replied, reply := Some(reply))]))
  }

  function MarkUnavailable(b: Board, runId: Id, jobId: Id): Outcome<Board> {
    var _ :- Need(runId in b.runs, UnknownRun);
    var run := b.runs[runId];
    var _ :- Need(IsLive(run) && run.jobId == Some(jobId), WorkerNotAddressable);
    var _ :- Need(run.taskId in b.tasks, UnknownTask);
    var next := ReplaceRun(b, runId, run.(status := RunStatus.Interrupted, reason := Some(WorkerUnavailable)));
    Ok(ReplaceTask(next, run.taskId,
                   b.tasks[run.taskId].(status := TaskStatus.Blocked, reason := Some(WorkerUnavailable))))
  }

  // -- Retention and the whole change ------------------------------------------------

  /** Settled runs stay while a task, a pending ask or an outbox entry names them. */
  predicate InUse(b: Board, r: Id) {
    || (exists x :: x in b.tasks && b.tasks[x].currentRun == Some(r))
    || (exists a, i :: a in b.asks && PendingAsk(b.asks[a]) && 0 <= i < |b.asks[a].sources| && b.asks[a].sources[i].runId == r)
    || (exists e :: e in b.outbox && !b.outbox[e].payload.WakeChief? && b.outbox[e].payload.runId == r)
  }

  function RetainCurrentRuns(b: Board): Board {
    b.(runs := map r | r in b.runs && (IsLive(b.runs[r]) || InUse(b, r)) :: b.runs[r])
  }

  datatype Wake = Wake(operationId: Id, event: WakeEvent, entityId: Id)

  /** What the host reports about a worker or a member. */
  datatype Event =
    | Progressed(runId: Id, jobId: Id, progress: Progress)
    | Reported(runId: Id, jobId: Id, report: FileRef)
    | Settled(runId: Id, jobId: Id, settlement: Settlement, report: FileRef)
    | Unavailable(runId: Id, jobId: Id)
    | Decision(askId: Id, reply: Reply)

  function SaveEvent(b: Board, e: Event): Outcome<Board> {
    match e
    case Progressed(runId, jobId, progress) => SaveProgress(b, runId, jobId, progress)
    case Reported(runId, jobId, report) => SaveReportClaim(b, runId, jobId, report)
    case Settled(runId, jobId, settlement, report) => SaveResult(b, runId, jobId, settlement, report)
    case Unavailable(runId, jobId) => MarkUnavailable(b, runId, jobId)
    case Decision(askId, reply) => SaveDecision(b, askId, reply)
  }

  /** Each kind of change the service commits. An event delivered outside the inbox carries
      the wake it adds. */
  datatype Change =
    | Decided(action: Action)
    | Dispatch(operationId: Id, taskId: Id, anew: bool, prompt: string)
    | Control(operationId: Id, runId: Id, steer: bool, text: string)
    | Attempt(operationId: Id, attemptId: Id, effect: Effect)
    | Acknowledged(receipt: EffectReceipt)
    | Provider(event: Event, wake: Option<Wake>)

  function AddWake(b: Board, wake: Option<Wake>): Outcome<Board> {
    match wake
    case None => Ok(b)
    case Some(w) =>
      var _ :- Need(w.operationId !in b.outbox, DuplicateId);
      Ok(b.(outbox := b.outbox[w.operationId :=
              Entry(WakeChief(b.conversationId, w.event, w.entityId), EntryStatus.Reserved)]))
  }

  function Transform(b: Board, c: Change): Outcome<Board> {
    match c
    case Decided(action) => Decide(b, action)
    case Dispatch(op, taskId, anew, prompt) => ReserveRun(b, op, taskId, anew, prompt)
    case Control(op, runId, steer, text) => ReserveControl(b, op, runId, steer, text)
    case Attempt(op, attemptId, effect) => MarkAttempted(b, op, attemptId, effect)
    case Acknowledged(receipt) => Acknowledge(b, receipt)
    case Provider(event, wake) =>
      var next :- SaveEvent(b, event); AddWake(next, wake)
  }

  /** The Board a transformed Board is committed as: retained, and one revision on. */
  function Committed(b: Board, changed: Board): Board {
    RetainCurrentRuns(changed).(revision := b.revision + 1)
  }

  /** A change commits when its transform answers and the result is valid. */
  ghost predicate Commits(b: Board, c: Change, next: Board) {
    Transform(b, c).Ok? && next == Committed(b, Transform(b, c).value) && Valid(next)
  }
}

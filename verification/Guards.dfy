/** Exactly when the policy answers a change, said by what the Board shows. */
module Guards {
  import opened Values
  import opened Graph
  import opened Merge
  import opened Boards
  import opened Policy
  import opened Invariant

  /** Only where the task came from is different. */
  predicate OriginOnly(task: Task, spec: TaskSpec) {
    && spec.key == task.key && spec.title == task.title && spec.brief == task.brief && spec.access == task.access
    && spec.dependencies == task.dependencies && spec.origin.Some? && spec.origin != task.origin
  }

  predicate MayDecide(b: Board, action: Action) {
    match action
    case TaskPut(id, spec) =>
      && (forall x :: x in b.tasks && b.tasks[x].key == spec.key ==> x == id)
      && (id in b.tasks ==>
            || b.tasks[id].status.Queued? || b.tasks[id].status.Blocked?
            || (!b.tasks[id].status.Merged? && OriginOnly(b.tasks[id], spec)))
    case SetTaskStatus(id, _, _) => id in b.tasks && !b.tasks[id].status.Running? && !b.tasks[id].status.Merged?
    case TaskMerge(s, t) =>
      && s in b.tasks && t in b.tasks && s != t && !b.tasks[s].status.Running? && !b.tasks[s].status.Merged?
      && (b.tasks[t].status.Queued? || b.tasks[t].status.Blocked?)
      && (forall x, d :: x in b.tasks && d in b.tasks[x].dependencies ==> Canonical(GraphOf(b.tasks), d).Ok?)
    case Accept(id, outcome, evidence) =>
      id in b.tasks && b.tasks[id].status.Review? && ValidRefs(evidence) && evidence != [] && BoundedText(outcome, 2000)
    case AskOpen(id, _) => id !in b.asks
    case AskResolve(id, how, resolution) =>
      && id in b.asks && (b.asks[id].status.Replied? || (b.asks[id].status.Open? && !how.AsAnswered?))
      && BoundedText(resolution, 4000)
    case _ => true
  }

  /** The task waits for nothing and nobody, there is room for its worker, and a conversation to continue if one is due. */
  predicate MayDispatch(b: Board, op: Id, t: Id, anew: bool) {
    && t in b.tasks && b.tasks[t].status.Queued?
    && (forall d :: d in b.tasks[t].dependencies ==>
          var c := Canonical(GraphOf(b.tasks), d); c.Ok? && c.value in b.tasks && b.tasks[c.value].status.Done?)
    && (forall a, x :: a in b.asks && x in b.asks[a].blocks && (b.asks[a].status.Open? || b.asks[a].status.Replied?) ==>
          Canonical(GraphOf(b.tasks), x) != Ok(t))
    && (b.concurrencyLimit.None? || |set r | r in b.runs && IsLive(b.runs[r])| < b.concurrencyLimit.value)
    && (anew || b.tasks[t].conversationId.Some? || forall r :: r in b.runs ==> b.runs[r].taskId != t)
    && op !in b.runs && op !in b.outbox
  }

  predicate MayAcknowledge(b: Board, receipt: EffectReceipt) {
    var op := receipt.operationId;
    && op in b.outbox && b.outbox[op].status.Attempted?
    && var payload := b.outbox[op].payload;
       match receipt
       case Dispatched(_, jobId, conversationId) =>
         && payload.DispatchJob? && ValidId(jobId) && ValidId(conversationId)
         && (payload.conversation.Continue? ==> payload.conversation.conversationId == conversationId)
       case Controlled(_, jobId, _) => payload.ControlJob? && payload.jobId == jobId
       case Woken(_, _) => payload.WakeChief?
       case Rejected(_, _) => true
  }

  /** A worker is heard about its own live run only; a checkpoint already seen is heard and changes nothing. */
  predicate MaySave(b: Board, event: Event) {
    match event
    case Progressed(r, job, p) =>
      ValidProgress(p) && r in b.runs && b.runs[r].jobId == Some(job) && (IsLive(b.runs[r]) || p.sequence <= b.runs[r].observedSequence)
    case Reported(r, job, report) => r in b.runs && b.runs[r].jobId == Some(job) && IsLive(b.runs[r]) && ValidRef(report)
    case Settled(r, job, _, report) => r in b.runs && b.runs[r].jobId == Some(job) && IsLive(b.runs[r]) && ValidRef(report)
    case Unavailable(r, job) => r in b.runs && b.runs[r].jobId == Some(job) && IsLive(b.runs[r])
    case Decision(a, reply) =>
      && a in b.asks && b.asks[a].status.Open?
      && reply.source.memberId in b.asks[a].addressedTo && reply.source.conversationId == b.conversationId
  }

  predicate May(b: Board, c: Change) {
    match c
    case Decided(action) => MayDecide(b, action)
    case Dispatch(op, t, anew, _) => MayDispatch(b, op, t, anew)
    case Control(op, r, _, text) =>
      r in b.runs && (b.runs[r].status.Queued? || b.runs[r].status.Running?) && BoundedText(text, 12000) && op !in b.outbox
    case Attempt(op, _, _) => op in b.outbox && b.outbox[op].status.Reserved?
    case Acknowledged(receipt) => MayAcknowledge(b, receipt)
    case Provider(event, wake) => MaySave(b, event) && (wake.Some? ==> wake.value.operationId !in b.outbox)
  }

  // -- What a reachable Board guarantees ------------------------------------------------------

  /** A task has a live worker exactly while it is running, and under review it names its run. */
  predicate TasksSteady(b: Board) {
    forall t :: t in b.tasks ==>
      (NoLive(b, t) <==> !b.tasks[t].status.Running?) && (b.tasks[t].status.Review? ==> b.tasks[t].currentRun.Some?)
  }

  predicate RunsSteady(b: Board) {
    forall r :: r in b.runs ==>
      b.runs[r].taskId in b.tasks && (b.runs[r].jobId.Some? && IsLive(b.runs[r]) <==> b.runs[r].status.Queued? || b.runs[r].status.Running?)
  }

  predicate AsksSteady(b: Board) {
    forall a :: a in b.asks ==> (b.asks[a].status.Open? ==> b.asks[a].reply.None?)
  }

  predicate OutboxSteady(b: Board) {
    forall e :: e in b.outbox && !b.outbox[e].payload.WakeChief? ==>
      && b.outbox[e].payload.runId in b.runs && b.runs[b.outbox[e].payload.runId].taskId in b.tasks
      && (b.outbox[e].payload.DispatchJob? ==> b.runs[b.outbox[e].payload.runId].jobId.None?)
  }

  predicate MergesLookUp(tasks: map<Id, Task>) {
    Lookups(GraphOf(tasks)) <==> forall x, d :: x in tasks && d in tasks[x].dependencies ==> Canonical(GraphOf(tasks), d).Ok?
  }

  lemma TasksAreSteady(b: Board)
    requires ValidRuns(b.tasks, b.runs) && ValidCurrent(b.tasks, b.runs) && Backed(b.tasks, b.runs)
    ensures TasksSteady(b)
  {
    forall t | t in b.tasks
      ensures NoLive(b, t) <==> !b.tasks[t].status.Running?
    {
      forall r | r in b.runs && b.runs[r].taskId == t && IsLive(b.runs[r])
        ensures b.tasks[t].status.Running?
      {
        assert ValidRun(b.tasks, r, b.runs[r]);
      }
    }
  }

  lemma RunsAreSteady(b: Board)
    requires ValidRuns(b.tasks, b.runs) && Identified(b.runs)
    ensures RunsSteady(b)
  {
    forall r | r in b.runs
      ensures b.runs[r].taskId in b.tasks
      ensures b.runs[r].jobId.Some? && IsLive(b.runs[r]) <==> b.runs[r].status.Queued? || b.runs[r].status.Running?
    {
      assert ValidRun(b.tasks, r, b.runs[r]) && IdentifiedRun(b.runs[r]);
    }
  }

  lemma AsksAreSteady(b: Board)
    requires ValidAsks(b.tasks, b.runs, b.asks)
    ensures AsksSteady(b)
  {
    forall a | a in b.asks
      ensures b.asks[a].status.Open? ==> b.asks[a].reply.None?
    {
      assert ValidAsk(b.tasks, b.runs, a, b.asks[a]);
    }
  }

  lemma OutboxIsSteady(b: Board)
    requires Coupled(b.runs, b.outbox) && Identified(b.runs) && RunsSteady(b)
    ensures OutboxSteady(b)
  {
    forall e | e in b.outbox && b.outbox[e].payload.DispatchJob?
      ensures e in b.runs && b.runs[e].jobId.None?
    {
      assert IdentifiedRun(b.runs[e]);
    }
  }

  lemma MergesAreLookedUp(tasks: map<Id, Task>)
    requires ValidTasks(tasks)
    ensures MergesLookUp(tasks)
  {
    var g := GraphOf(tasks);
    assert OriginsResolve(g);
    if Lookups(g) {
      forall x, d | x in tasks && d in tasks[x].dependencies
        ensures Canonical(g, d).Ok?
      {
        assert d in g[x].dependencies;
      }
    }
  }

  // -- Each change ---------------------------------------------------------------------------

  lemma PutIff(b: Board, id: Id, spec: TaskSpec)
    requires TasksSteady(b)
    ensures PutTask(b, id, spec).Ok? <==> MayDecide(b, TaskPut(id, spec))
  {
  }

  lemma MergeIff(b: Board, s: Id, t: Id)
    requires TasksSteady(b) && MergesLookUp(b.tasks)
    ensures MergeTasks(b, s, t).Ok? <==> MayDecide(b, TaskMerge(s, t))
  {
  }

  lemma DecidedIff(b: Board, action: Action)
    requires TasksSteady(b) && MergesLookUp(b.tasks)
    ensures Decide(b, action).Ok? <==> MayDecide(b, action)
  {
    match action
    case TaskPut(id, spec) => PutIff(b, id, spec);
    case TaskMerge(s, t) => MergeIff(b, s, t);
    case _ =>
  }

  lemma DispatchedIff(b: Board, op: Id, t: Id, anew: bool, prompt: string)
    requires TasksSteady(b)
    ensures ReserveRun(b, op, t, anew, prompt).Ok? <==> MayDispatch(b, op, t, anew)
  {
  }

  lemma AcknowledgedIff(b: Board, receipt: EffectReceipt)
    requires OutboxSteady(b)
    ensures Acknowledge(b, receipt).Ok? <==> MayAcknowledge(b, receipt)
  {
  }

  lemma SavedIff(b: Board, event: Event)
    requires RunsSteady(b) && AsksSteady(b)
    ensures SaveEvent(b, event).Ok? <==> MaySave(b, event)
    ensures SaveEvent(b, event).Ok? ==> SaveEvent(b, event).value.outbox == b.outbox
  {
  }

  lemma SteadyIff(b: Board, c: Change)
    requires TasksSteady(b) && RunsSteady(b) && AsksSteady(b) && OutboxSteady(b) && MergesLookUp(b.tasks)
    ensures Transform(b, c).Ok? <==> May(b, c)
  {
    match c
    case Decided(action) => DecidedIff(b, action);
    case Dispatch(op, t, anew, prompt) => DispatchedIff(b, op, t, anew, prompt);
    case Control(_, _, _, _) =>
    case Attempt(_, _, _) =>
    case Acknowledged(receipt) => AcknowledgedIff(b, receipt);
    case Provider(event, wake) => SavedIff(b, event);
  }

  /** On every Board the engine can reach, a change is answered exactly when the Board permits it. */
  lemma AnsweredIff(b: Board, c: Change)
    requires Valid(b) && Inv(b)
    ensures Transform(b, c).Ok? <==> May(b, c)
  {
    TasksAreSteady(b);
    RunsAreSteady(b);
    AsksAreSteady(b);
    OutboxIsSteady(b);
    MergesAreLookedUp(b.tasks);
    SteadyIff(b, c);
  }
}

/** Authoritative events are never wedged: on a reachable Board below capacity, an event
    whose own guards pass always commits. */
module Unwedged {
  import opened Values
  import opened Graph
  import opened Boards
  import opened Policy
  import opened Invariant

  /** The relations between tasks are as they were, and so is every key. */
  predicate SamePlace(task: Task, task': Task) {
    && task'.mergedInto == task.mergedInto && task'.dependencies == task.dependencies && task'.origin == task.origin
    && task'.key == task.key && task'.currentRun == task.currentRun
  }

  lemma SameGraph(tasks: map<Id, Task>, t: Id, task': Task)
    requires t in tasks && SamePlace(tasks[t], task')
    ensures GraphOf(tasks[t := task']) == GraphOf(tasks)
  {
  }

  lemma EachStaysValid(tasks: map<Id, Task>, t: Id, task': Task)
    requires EachTaskValid(tasks) && ValidTask(t, task')
    ensures EachTaskValid(tasks[t := task'])
  {
  }

  lemma KeysStayUnique(tasks: map<Id, Task>, t: Id, task': Task)
    requires KeysUnique(tasks) && t in tasks && task'.key == tasks[t].key
    ensures KeysUnique(tasks[t := task'])
  {
  }

  lemma TasksStayValid(tasks: map<Id, Task>, t: Id, task': Task)
    requires ValidTasks(tasks) && t in tasks && SamePlace(tasks[t], task') && ValidTask(t, task')
    ensures ValidTasks(tasks[t := task'])
  {
    EachStaysValid(tasks, t, task');
    KeysStayUnique(tasks, t, task');
    SameGraph(tasks, t, task');
  }

  lemma DoneStaysDone(tasks: map<Id, Task>, t: Id, task': Task, task: Task)
    requires t in tasks && SamePlace(tasks[t], task') && !tasks[t].status.Done?
    requires DependenciesDone(tasks, task)
    ensures DependenciesDone(tasks[t := task'], task)
  {
    SameGraph(tasks, t, task');
    forall d | d in task.dependencies
      ensures DoneTask(tasks[t := task'], d)
    {
      assert DoneTask(tasks, d);
    }
  }

  /** What an event may turn a live run and its running task into. */
  predicate Touch(t: Id, task: Task, task': Task, run: Run, run': Run) {
    && SamePlace(task, task') && ValidTask(t, task')
    && run'.taskId == run.taskId
    && (run.conversationId.Some? ==> run'.conversationId == run.conversationId)
    && (if IsLive(run') then task'.status.Running? else task'.status.Review? || task'.status.Blocked?)
    && SoundRun(run')
  }

  lemma RunsStayValid(tasks: map<Id, Task>, runs: map<Id, Run>, r: Id, task': Task, run': Run)
    requires ValidRuns(tasks, runs) && r in runs && IsLive(runs[r])
    requires runs[r].taskId in tasks && Touch(runs[r].taskId, tasks[runs[r].taskId], task', runs[r], run')
    ensures ValidRuns(tasks[runs[r].taskId := task'], runs[r := run'])
  {
    var t := runs[r].taskId;
    var tasks', runs' := tasks[t := task'], runs[r := run'];
    assert ValidRun(tasks, r, runs[r]);
    forall id | id in runs'
      ensures ValidRun(tasks', id, runs'[id])
    {
      assert ValidRun(tasks, id, runs[id]);
      if IsLive(runs'[id]) {
        DoneStaysDone(tasks, t, task', tasks[runs[id].taskId]);
        assert id == r || runs[id].taskId != t;
      }
    }
  }

  lemma CurrentStaysValid(tasks: map<Id, Task>, runs: map<Id, Run>, r: Id, task': Task, run': Run)
    requires ValidCurrent(tasks, runs) && ValidRuns(tasks, runs) && r in runs && IsLive(runs[r])
    requires runs[r].taskId in tasks && Touch(runs[r].taskId, tasks[runs[r].taskId], task', runs[r], run')
    ensures ValidCurrent(tasks[runs[r].taskId := task'], runs[r := run'])
  {
    var t := runs[r].taskId;
    var tasks', runs' := tasks[t := task'], runs[r := run'];
    assert ValidRun(tasks, r, runs[r]);
    forall id | id in tasks'
      ensures tasks'[id].status.Running? ==> exists x :: x in runs' && IsLive(runs'[x]) && runs'[x].taskId == id
    {
      if id == t && IsLive(run') {
        assert r in runs' && IsLive(runs'[r]);
      } else if id != t && tasks[id].status.Running? {
        var x :| x in runs && IsLive(runs[x]) && runs[x].taskId == id;
        assert x in runs' && IsLive(runs'[x]);
      }
    }
  }

  lemma AsksStayValid(tasks: map<Id, Task>, runs: map<Id, Run>, asks: map<Id, Ask>, t: Id, task': Task, r: Id, run': Run)
    requires ValidAsks(tasks, runs, asks) && t in tasks && r in runs && run'.taskId == runs[r].taskId
    requires runs[r].conversationId.Some? ==> run'.conversationId == runs[r].conversationId
    ensures ValidAsks(tasks[t := task'], runs[r := run'], asks)
  {
    forall id | id in asks
      ensures ValidAsk(tasks[t := task'], runs[r := run'], id, asks[id])
    {
      assert ValidAsk(tasks, runs, id, asks[id]);
      forall i | 0 <= i < |asks[id].sources|
        ensures ValidSource(runs[r := run'], asks[id], asks[id].sources[i])
      {
        assert ValidSource(runs, asks[id], asks[id].sources[i]);
      }
    }
  }

  /** Everything validation asks of tasks, runs and asks. */
  ghost predicate ValidCore(b: Board) {
    ValidTasks(b.tasks) && ValidRuns(b.tasks, b.runs) && ValidCurrent(b.tasks, b.runs) && ValidAsks(b.tasks, b.runs, b.asks)
  }

  /** `r` is live, and what validation knows of it and its task on their own. */
  predicate LiveAt(b: Board, r: Id) {
    && r in b.runs && IsLive(b.runs[r]) && SoundRun(b.runs[r])
    && b.runs[r].taskId in b.tasks && ValidTask(b.runs[r].taskId, b.tasks[b.runs[r].taskId])
    && b.tasks[b.runs[r].taskId].status.Running?
  }

  lemma LiveRunTask(b: Board, r: Id)
    requires ValidCore(b) && r in b.runs && IsLive(b.runs[r])
    ensures LiveAt(b, r)
  {
    assert ValidRun(b.tasks, r, b.runs[r]);
  }

  function Touched(b: Board, r: Id, task': Task, run': Run): Board
    requires r in b.runs
  {
    ReplaceTask(ReplaceRun(b, r, run'), b.runs[r].taskId, task')
  }

  lemma TouchStaysValid(b: Board, r: Id, task': Task, run': Run)
    requires ValidCore(b) && LiveAt(b, r)
    requires Touch(b.runs[r].taskId, b.tasks[b.runs[r].taskId], task', b.runs[r], run')
    ensures ValidCore(Touched(b, r, task', run'))
  {
    var t := b.runs[r].taskId;
    TasksStayValid(b.tasks, t, task');
    RunsStayValid(b.tasks, b.runs, r, task', run');
    CurrentStaysValid(b.tasks, b.runs, r, task', run');
    AsksStayValid(b.tasks, b.runs, b.asks, t, task', r, run');
  }

  /** The parts of a Board no authoritative event touches, besides its outbox. */
  predicate SameRest(b: Board, b': Board) {
    && b'.conversationId == b.conversationId && b'.revision == b.revision && b'.history == b.history
    && b'.concurrencyLimit == b.concurrencyLimit && b'.checkpoint == b.checkpoint && b'.checkinMinutes == b.checkinMinutes
    && b'.rules == b.rules && b'.asks.Keys == b.asks.Keys
    && b'.tasks.Keys == b.tasks.Keys && b'.runs.Keys == b.runs.Keys
  }

  // -- Each event touches one live run and its task -------------------------------------

  /** `b'` is `b` with the live run `r` and its task touched. */
  predicate Touches(b: Board, b': Board, r: Id) {
    && LiveAt(b, r) && r in b'.runs && b.runs[r].taskId in b'.tasks
    && b' == Touched(b, r, b'.tasks[b.runs[r].taskId], b'.runs[r])
    && Touch(b.runs[r].taskId, b.tasks[b.runs[r].taskId], b'.tasks[b.runs[r].taskId], b.runs[r], b'.runs[r])
  }

  /** Tasks, runs and asks stay valid, and nothing else moved. */
  ghost predicate Carried(b: Board, b': Board) {
    ValidCore(b') && SameRest(b, b') && b'.outbox == b.outbox
  }

  lemma ProgressTouches(b: Board, runId: Id, jobId: Id, progress: Progress)
    requires SaveProgress(b, runId, jobId, progress).Ok? && LiveAt(b, runId)
    requires progress.sequence > b.runs[runId].observedSequence
    ensures Touches(b, SaveProgress(b, runId, jobId, progress).value, runId)
  {
  }

  lemma ReportTouches(b: Board, runId: Id, jobId: Id, report: FileRef)
    requires SaveReportClaim(b, runId, jobId, report).Ok? && LiveAt(b, runId)
    ensures Touches(b, SaveReportClaim(b, runId, jobId, report).value, runId)
  {
  }

  lemma ResultTouches(b: Board, runId: Id, jobId: Id, settlement: Settlement, report: FileRef)
    requires SaveResult(b, runId, jobId, settlement, report).Ok? && LiveAt(b, runId)
    ensures Touches(b, SaveResult(b, runId, jobId, settlement, report).value, runId)
  {
  }

  lemma UnavailableTouches(b: Board, runId: Id, jobId: Id)
    requires MarkUnavailable(b, runId, jobId).Ok? && LiveAt(b, runId)
    ensures Touches(b, MarkUnavailable(b, runId, jobId).value, runId)
  {
  }

  lemma DispatchReceiptTouches(b: Board, payload: Payload, receipt: EffectReceipt)
    requires payload.DispatchJob? && LiveAt(b, payload.runId) && b.runs[payload.runId].conversationId.None?
    requires receipt.Dispatched? || receipt.Rejected?
    requires ApplyReceipt(b, payload, receipt).Ok?
    ensures Touches(b, ApplyReceipt(b, payload, receipt).value, payload.runId)
  {
  }

  lemma SteerTouches(b: Board, payload: Payload, jobId: Id)
    requires payload.ControlJob? && payload.steer && LiveAt(b, payload.runId) && BoundedText(payload.text, 12000)
    requires ControlReceipt(b, payload, jobId, true).Ok?
    ensures Touches(b, ControlReceipt(b, payload, jobId, true).value, payload.runId)
  {
  }

  lemma TouchedStaysValid(b: Board, b': Board, r: Id)
    requires ValidCore(b) && Touches(b, b', r)
    ensures Carried(b, b')
  {
    TouchStaysValid(b, r, b'.tasks[b.runs[r].taskId], b'.runs[r]);
  }

  lemma ProgressStaysValid(b: Board, runId: Id, jobId: Id, progress: Progress, b': Board)
    requires ValidCore(b) && SaveProgress(b, runId, jobId, progress) == Ok(b')
    ensures Carried(b, b')
  {
    if progress.sequence > b.runs[runId].observedSequence {
      LiveRunTask(b, runId);
      ProgressTouches(b, runId, jobId, progress);
      TouchedStaysValid(b, b', runId);
    }
  }

  lemma ReportStaysValid(b: Board, runId: Id, jobId: Id, report: FileRef, b': Board)
    requires ValidCore(b) && SaveReportClaim(b, runId, jobId, report) == Ok(b')
    ensures Carried(b, b')
  {
    LiveRunTask(b, runId);
    ReportTouches(b, runId, jobId, report);
    TouchedStaysValid(b, b', runId);
  }

  lemma ResultStaysValid(b: Board, runId: Id, jobId: Id, settlement: Settlement, report: FileRef, b': Board)
    requires ValidCore(b) && SaveResult(b, runId, jobId, settlement, report) == Ok(b')
    ensures Carried(b, b')
  {
    LiveRunTask(b, runId);
    ResultTouches(b, runId, jobId, settlement, report);
    TouchedStaysValid(b, b', runId);
  }

  lemma UnavailableStaysValid(b: Board, runId: Id, jobId: Id, b': Board)
    requires ValidCore(b) && MarkUnavailable(b, runId, jobId) == Ok(b')
    ensures Carried(b, b')
  {
    LiveRunTask(b, runId);
    UnavailableTouches(b, runId, jobId);
    TouchedStaysValid(b, b', runId);
  }

  lemma ReceiptStaysValid(b: Board, op: Id, receipt: EffectReceipt, mid: Board)
    requires ValidCore(b) && Coupled(b.runs, b.outbox) && Identified(b.runs)
    requires op in b.outbox && ApplyReceipt(b, b.outbox[op].payload, receipt) == Ok(mid)
    ensures Carried(b, mid)
  {
    var payload := b.outbox[op].payload;
    if payload.DispatchJob? {
      LiveRunTask(b, op);
      DispatchReceiptTouches(b, payload, receipt);
      TouchedStaysValid(b, mid, op);
    } else if payload.ControlJob? && receipt.Controlled? && receipt.applied && payload.steer && IsLive(b.runs[payload.runId]) {
      LiveRunTask(b, payload.runId);
      SteerTouches(b, payload, receipt.jobId);
      TouchedStaysValid(b, mid, payload.runId);
    }
  }

  // -- Retention ------------------------------------------------------------------------

  lemma SubsetSize<T>(a: set<T>, b: set<T>)
    requires a <= b
    ensures |a| <= |b|
  {
    assert b == a + (b - a);
  }

  /** `kept` is part of `runs` and holds at least the live runs. */
  predicate Keeps(runs: map<Id, Run>, kept: map<Id, Run>) {
    && (forall r :: r in kept ==> r in runs && kept[r] == runs[r])
    && (forall r :: r in runs && IsLive(runs[r]) ==> r in kept)
  }

  lemma KeptRunsValid(tasks: map<Id, Task>, runs: map<Id, Run>, kept: map<Id, Run>)
    requires ValidRuns(tasks, runs) && Keeps(runs, kept)
    ensures ValidRuns(tasks, kept)
  {
  }

  lemma KeptCurrentValid(tasks: map<Id, Task>, runs: map<Id, Run>, kept: map<Id, Run>)
    requires ValidCurrent(tasks, runs) && Keeps(runs, kept)
    requires forall x :: x in tasks && tasks[x].currentRun.Some? ==> tasks[x].currentRun.value in kept
    ensures ValidCurrent(tasks, kept)
  {
    forall id | id in tasks && tasks[id].status.Running?
      ensures exists r :: r in kept && IsLive(kept[r]) && kept[r].taskId == id
    {
      var r :| r in runs && IsLive(runs[r]) && runs[r].taskId == id;
      assert r in kept;
    }
  }

  lemma KeptAsksValid(tasks: map<Id, Task>, runs: map<Id, Run>, kept: map<Id, Run>, asks: map<Id, Ask>)
    requires ValidAsks(tasks, runs, asks) && Keeps(runs, kept)
    requires forall a, i :: a in asks && PendingAsk(asks[a]) && 0 <= i < |asks[a].sources| ==> asks[a].sources[i].runId in kept
    ensures ValidAsks(tasks, kept, asks)
  {
    forall id | id in asks
      ensures ValidAsk(tasks, kept, id, asks[id])
    {
      assert ValidAsk(tasks, runs, id, asks[id]);
      forall i | 0 <= i < |asks[id].sources|
        ensures ValidSource(kept, asks[id], asks[id].sources[i])
      {
        assert ValidSource(runs, asks[id], asks[id].sources[i]);
      }
    }
  }

  lemma PendingSourcesKept(b: Board)
    requires ValidAsks(b.tasks, b.runs, b.asks)
    ensures forall a, i :: a in b.asks && PendingAsk(b.asks[a]) && 0 <= i < |b.asks[a].sources| ==>
              b.asks[a].sources[i].runId in RetainCurrentRuns(b).runs
  {
    forall a, i | a in b.asks && PendingAsk(b.asks[a]) && 0 <= i < |b.asks[a].sources|
      ensures b.asks[a].sources[i].runId in RetainCurrentRuns(b).runs
    {
      assert ValidAsk(b.tasks, b.runs, a, b.asks[a]);
      assert ValidSource(b.runs, b.asks[a], b.asks[a].sources[i]);
      assert InUse(b, b.asks[a].sources[i].runId);
    }
  }

  lemma CurrentRunsKept(b: Board)
    requires ValidCurrent(b.tasks, b.runs)
    ensures forall x :: x in b.tasks && b.tasks[x].currentRun.Some? ==>
              b.tasks[x].currentRun.value in RetainCurrentRuns(b).runs
  {
    forall x | x in b.tasks && b.tasks[x].currentRun.Some?
      ensures b.tasks[x].currentRun.value in RetainCurrentRuns(b).runs
    {
      assert InUse(b, b.tasks[x].currentRun.value);
    }
  }

  lemma RetainStaysValid(b: Board)
    requires ValidCore(b)
    ensures ValidCore(RetainCurrentRuns(b)) && |RetainCurrentRuns(b).runs| <= |b.runs|
  {
    var kept := RetainCurrentRuns(b).runs;
    SubsetSize(kept.Keys, b.runs.Keys);
    KeptRunsValid(b.tasks, b.runs, kept);
    CurrentRunsKept(b);
    KeptCurrentValid(b.tasks, b.runs, kept);
    PendingSourcesKept(b);
    KeptAsksValid(b.tasks, b.runs, kept, b.asks);
  }

  // -- The theorem ------------------------------------------------------------------------

  /** Room for one more revision, and for the wake the event adds, if it adds one. */
  predicate BelowCapacity(b: Board, wake: Option<Wake>) {
    b.revision < MAX_SAFE && (wake.Some? ==> |b.outbox| < 10000)
  }

  predicate EachEntryValid(outbox: map<Id, Entry>) {
    forall id :: id in outbox ==> ValidEntry(id, outbox[id])
  }

  lemma CommittedCapacity(b: Board, changed: Board)
    requires WithinCapacity(b) && SameRest(b, changed) && |changed.outbox| <= 10000
    requires |RetainCurrentRuns(changed).runs| <= |changed.runs|
    ensures WithinCapacity(Committed(b, changed))
  {
    assert |changed.tasks.Keys| == |b.tasks.Keys| && |changed.runs.Keys| == |b.runs.Keys| && |changed.asks.Keys| == |b.asks.Keys|;
  }

  lemma CommittedHeader(b: Board, changed: Board)
    requires ValidHeader(b) && SameRest(b, changed) && b.revision < MAX_SAFE
    ensures ValidHeader(Committed(b, changed))
  {
  }

  lemma FinishStaysValid(b: Board, changed: Board)
    requires Valid(b) && SameRest(b, changed) && ValidCore(changed) && EachEntryValid(changed.outbox)
    requires |changed.outbox| <= 10000 && b.revision < MAX_SAFE
    ensures Valid(Committed(b, changed))
  {
    RetainStaysValid(changed);
    CommittedCapacity(b, changed);
    CommittedHeader(b, changed);
  }

  lemma WakeFinishes(b: Board, mid: Board, wake: Option<Wake>)
    requires Valid(b) && BelowCapacity(b, wake) && Carried(b, mid) && AddWake(mid, wake).Ok?
    requires wake.Some? ==> ValidId(wake.value.operationId)
    ensures Valid(Committed(b, AddWake(mid, wake).value))
  {
    FinishStaysValid(b, AddWake(mid, wake).value);
  }

  lemma EventCarries(b: Board, e: Event, mid: Board)
    requires ValidCore(b) && !e.Decision? && SaveEvent(b, e) == Ok(mid)
    ensures Carried(b, mid)
  {
    match e
    case Progressed(runId, jobId, progress) => ProgressStaysValid(b, runId, jobId, progress, mid);
    case Reported(runId, jobId, report) => ReportStaysValid(b, runId, jobId, report, mid);
    case Settled(runId, jobId, settlement, report) => ResultStaysValid(b, runId, jobId, settlement, report, mid);
    case Unavailable(runId, jobId) => UnavailableStaysValid(b, runId, jobId, mid);
  }

  /** On every reachable Board below capacity, an event about a worker whose own guards pass
      commits, with or without its wake: validation never refuses one. */
  lemma EventNeverWedged(b: Board, e: Event, wake: Option<Wake>, mid: Board)
    requires Valid(b) && BelowCapacity(b, wake) && !e.Decision?
    requires SaveEvent(b, e) == Ok(mid) && AddWake(mid, wake).Ok?
    requires wake.Some? ==> ValidId(wake.value.operationId)
    ensures Valid(Committed(b, AddWake(mid, wake).value))
  {
    EventCarries(b, e, mid);
    WakeFinishes(b, mid, wake);
  }

  /** The same for the receipt of an attempted effect, also when the outbox is full. */
  lemma ReceiptNeverWedged(b: Board, receipt: EffectReceipt)
    requires Inv(b) && Valid(b) && b.revision < MAX_SAFE && Acknowledge(b, receipt).Ok?
    ensures Valid(Committed(b, Acknowledge(b, receipt).value))
  {
    var op := receipt.operationId;
    var mid := ApplyReceipt(b, b.outbox[op].payload, receipt).value;
    ReceiptStaysValid(b, op, receipt, mid);
    SubsetSize((b.outbox - {op}).Keys, b.outbox.Keys);
    FinishStaysValid(b, mid.(outbox := mid.outbox - {op}));
  }

  // -- Member decisions ---------------------------------------------------------------------

  /** What a saved reply must be like for validation to keep it. */
  predicate KeepableReply(reply: Reply) {
    ValidId(reply.source.messageId) && ValidId(reply.decisionId) && BoundedText(reply.text, 4000)
  }

  lemma DecisionAsks(tasks: map<Id, Task>, runs: map<Id, Run>, asks: map<Id, Ask>, a: Id, reply: Reply)
    requires ValidAsks(tasks, runs, asks) && a in asks && asks[a].status.Open? && asks[a].reply.None?
    requires reply.source.memberId in asks[a].addressedTo && ValidId(reply.source.conversationId)
    requires KeepableReply(reply)
    ensures ValidAsks(tasks, runs, asks[a := asks[a].(status := Replied, reply := Some(reply))])
  {
    var asks' := asks[a := asks[a].(status := Replied, reply := Some(reply))];
    assert ValidAsk(tasks, runs, a, asks[a]);
    forall id | id in asks'
      ensures ValidAsk(tasks, runs, id, asks'[id])
    {
      assert ValidAsk(tasks, runs, id, asks[id]);
      forall i | 0 <= i < |asks'[id].sources|
        ensures ValidSource(runs, asks'[id], asks'[id].sources[i])
      {
        assert ValidSource(runs, asks[id], asks[id].sources[i]);
      }
    }
  }

  lemma DecisionCarries(b: Board, a: Id, reply: Reply, mid: Board)
    requires ValidCore(b) && ValidId(b.conversationId) && SaveDecision(b, a, reply) == Ok(mid) && KeepableReply(reply)
    ensures Carried(b, mid)
  {
    DecisionAsks(b.tasks, b.runs, b.asks, a, reply);
  }

  lemma UnkeepableReply(tasks: map<Id, Task>, runs: map<Id, Run>, asks: map<Id, Ask>, a: Id, reply: Reply)
    requires a in asks && asks[a].reply == Some(reply) && !KeepableReply(reply)
    ensures !ValidAsks(tasks, runs, asks)
  {
    assert !ValidReply(asks[a], reply);
    assert !ValidAsk(tasks, runs, a, asks[a]);
  }

  lemma DecisionCommits(b: Board, a: Id, reply: Reply, wake: Option<Wake>, mid: Board)
    requires Valid(b) && BelowCapacity(b, wake) && SaveDecision(b, a, reply) == Ok(mid) && AddWake(mid, wake).Ok?
    requires wake.Some? ==> ValidId(wake.value.operationId)
    requires KeepableReply(reply)
    ensures Valid(Committed(b, AddWake(mid, wake).value))
  {
    DecisionCarries(b, a, reply, mid);
    WakeFinishes(b, mid, wake);
  }

  lemma DecisionRefused(b: Board, a: Id, reply: Reply, wake: Option<Wake>, mid: Board)
    requires SaveDecision(b, a, reply) == Ok(mid) && AddWake(mid, wake).Ok? && !KeepableReply(reply)
    ensures !Valid(Committed(b, AddWake(mid, wake).value))
  {
    var next := Committed(b, AddWake(mid, wake).value);
    UnkeepableReply(next.tasks, next.runs, next.asks, a, reply);
  }

  /** A member's decision whose own guards pass commits exactly when validation can keep its reply: policy
      does not bound the reply's text or check its ids itself. */
  lemma DecisionCommitsIff(b: Board, a: Id, reply: Reply, wake: Option<Wake>, mid: Board)
    requires Valid(b) && BelowCapacity(b, wake) && SaveDecision(b, a, reply) == Ok(mid) && AddWake(mid, wake).Ok?
    requires wake.Some? ==> ValidId(wake.value.operationId)
    ensures Valid(Committed(b, AddWake(mid, wake).value)) <==> KeepableReply(reply)
  {
    if KeepableReply(reply) {
      DecisionCommits(b, a, reply, wake, mid);
    } else {
      DecisionRefused(b, a, reply, wake, mid);
    }
  }
}

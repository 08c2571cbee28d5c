/** What holds on every Board the service can reach and validation does not check, and how
    one change moves tasks, runs and outbox entries. */
module Invariant {
  import opened Values
  import opened Graph
  import opened Boards
  import opened Policy

  /** A run is reserved exactly while its dispatch is in the outbox, and every dispatch or
      control names a run that is still there. */
  predicate Coupled(runs: map<Id, Run>, outbox: map<Id, Entry>) {
    && (forall e :: e in outbox && outbox[e].payload.DispatchJob? ==>
          outbox[e].payload.runId == e && e in runs && runs[e].status.Reserved?)
    && (forall r :: r in runs && runs[r].status.Reserved? ==> r in outbox && outbox[r].payload.DispatchJob?)
    && (forall e :: e in outbox && outbox[e].payload.ControlJob? ==>
          && outbox[e].payload.runId in runs
          && runs[outbox[e].payload.runId].jobId == Some(outbox[e].payload.jobId)
          && BoundedText(outbox[e].payload.text, 12000))
  }

  /** A reserved run has no job yet; a live run past reservation has one, and a conversation. */
  predicate IdentifiedRun(run: Run) {
    && (run.status.Reserved? ==> run.jobId.None? && run.conversationId.None?)
    && (run.status.Queued? || run.status.Running? ==> run.jobId.Some? && run.conversationId.Some?)
    && (run.status.Completed? ==> run.report.Some? && ValidRef(run.report.value))
  }

  predicate Identified(runs: map<Id, Run>) {
    forall r :: r in runs ==> IdentifiedRun(runs[r])
  }

  /** A task under review still names the completed run that put it there. */
  predicate Backed(tasks: map<Id, Task>, runs: map<Id, Run>) {
    forall t :: t in tasks && tasks[t].status.Review? ==>
      && tasks[t].currentRun.Some? && tasks[t].currentRun.value in runs
      && runs[tasks[t].currentRun.value].status.Completed? && runs[tasks[t].currentRun.value].taskId == t
  }

  predicate Inv(b: Board) {
    Coupled(b.runs, b.outbox) && Identified(b.runs) && Backed(b.tasks, b.runs)
  }

  // -- One change, as seen from each record -------------------------------------

  function Rank(status: RunStatus): nat {
    match status
    case Reserved => 0
    case Queued => 1
    case Running => 2
    case _ => 3
  }

  /** A run moves only forward; its task never changes, its job and conversation are set at
      most once, and a settled run never changes again. */
  predicate Forward(run: Run, run': Run) {
    && run'.taskId == run.taskId
    && Rank(run.status) <= Rank(run'.status)
    && (!IsLive(run) ==> run' == run)
    && (run.jobId.Some? ==> run'.jobId == run.jobId)
    && (run.conversationId.Some? ==> run'.conversationId == run.conversationId)
  }

  /** The run a change starts, and for which task. */
  function Started(c: Change): Option<(Id, Id)> {
    if c.Dispatch? then Some((c.operationId, c.taskId)) else None
  }

  /** Known runs move forward; a new run is reserved by the dispatch that names it. */
  predicate RunsEvolve(runs: map<Id, Run>, runs': map<Id, Run>, started: Option<(Id, Id)>) {
    && (forall r :: r in runs && r in runs' ==> Forward(runs[r], runs'[r]))
    && (forall r :: r in runs' && r !in runs ==> started == Some((r, runs'[r].taskId)) && runs'[r].status.Reserved?)
  }

  /** The operation a change puts into the outbox. */
  function Introduced(c: Change): Option<Id> {
    match c
    case Dispatch(op, _, _, _) => Some(op)
    case Control(op, _, _, _) => Some(op)
    case Provider(_, wake) => if wake.Some? then Some(wake.value.operationId) else None
    case _ => None
  }

  /** An entry enters reserved, is attempted once, and leaves only after an attempt. */
  predicate OutboxEvolves(outbox: map<Id, Entry>, outbox': map<Id, Entry>, c: Change) {
    && (forall e :: e in outbox' && e !in outbox ==> Introduced(c) == Some(e) && outbox'[e].status.Reserved?)
    && (Introduced(c).Some? ==> Introduced(c).value !in outbox && Introduced(c).value in outbox')
    && (forall e :: e in outbox && e in outbox' ==>
          && outbox'[e].payload == outbox[e].payload
          && outbox'[e].status ==
             if c.Attempt? && c.operationId == e then Attempted(c.attemptId, c.effect) else outbox[e].status)
    && (c.Attempt? ==> c.operationId in outbox && outbox[c.operationId].status.Reserved? && c.operationId in outbox')
    && (forall e :: e in outbox && e !in outbox' ==>
          outbox[e].status.Attempted? && c.Acknowledged? && c.receipt.operationId == e)
  }

  /** An acceptance is either carried over or written now, for a task under review. */
  predicate AcceptancesEvolve(tasks: map<Id, Task>, tasks': map<Id, Task>, revision: int) {
    && tasks.Keys <= tasks'.Keys
    && forall t :: t in tasks' && tasks'[t].acceptance.Some? ==>
         && t in tasks
         && (tasks[t].acceptance == tasks'[t].acceptance
             || (&& tasks'[t].acceptance.value.revision == revision
                 && tasks[t].status.Review? && tasks[t].currentRun == Some(tasks'[t].acceptance.value.runId)))
  }

  predicate ReviewsKept(tasks: map<Id, Task>, tasks': map<Id, Task>) {
    forall t :: t in tasks' && tasks'[t].status.Review? ==>
      t in tasks && tasks[t].status.Review? && tasks[t].currentRun == tasks'[t].currentRun
  }

  predicate Evolves(b: Board, b': Board, c: Change) {
    && Inv(b')
    && RunsEvolve(b.runs, b'.runs, Started(c))
    && OutboxEvolves(b.outbox, b'.outbox, c)
    && AcceptancesEvolve(b.tasks, b'.tasks, b.revision + 1)
  }

  // -- Single-record updates --------------------------------------------------------

  /** Replacing one task keeps reviews backed and acceptances accounted for. */
  predicate TaskMoves(tasks: map<Id, Task>, id: Id, task': Task, revision: int) {
    && (task'.acceptance.Some? ==>
          && id in tasks
          && (task'.acceptance == tasks[id].acceptance
              || (&& task'.acceptance.value.revision == revision
                  && tasks[id].status.Review? && tasks[id].currentRun == Some(task'.acceptance.value.runId))))
    && (task'.status.Review? ==> id in tasks && tasks[id].status.Review? && tasks[id].currentRun == task'.currentRun)
  }

  lemma TaskMovesOn(tasks: map<Id, Task>, id: Id, task': Task, revision: int)
    requires TaskMoves(tasks, id, task', revision)
    ensures AcceptancesEvolve(tasks, tasks[id := task'], revision)
    ensures ReviewsKept(tasks, tasks[id := task'])
  {
  }

  lemma BackedAfter(tasks: map<Id, Task>, tasks': map<Id, Task>, runs: map<Id, Run>, runs': map<Id, Run>)
    requires Backed(tasks, runs) && ReviewsKept(tasks, tasks')
    requires forall r :: r in runs && runs[r].status.Completed? ==> r in runs' && runs'[r] == runs[r]
    ensures Backed(tasks', runs')
  {
  }

  lemma ReviewEnters(tasks: map<Id, Task>, runs: map<Id, Run>, t: Id, task': Task, r: Id, run': Run)
    requires Backed(tasks, runs) && r in runs && IsLive(runs[r]) && run'.taskId == t
    requires task'.status.Review? ==> task'.currentRun == Some(r) && run'.status.Completed?
    ensures Backed(tasks[t := task'], runs[r := run'])
  {
  }

  /** A run past reservation moves on without its outbox entries noticing. */
  lemma RunMovesOn(runs: map<Id, Run>, outbox: map<Id, Entry>, r: Id, run': Run, started: Option<(Id, Id)>)
    requires Coupled(runs, outbox) && Identified(runs) && r in runs && Forward(runs[r], run') && IdentifiedRun(run')
    requires !runs[r].status.Reserved?
    ensures Coupled(runs[r := run'], outbox) && Identified(runs[r := run'])
    ensures RunsEvolve(runs, runs[r := run'], started)
  {
  }

  lemma RunStarts(runs: map<Id, Run>, outbox: map<Id, Entry>, op: Id, run: Run, entry: Entry)
    requires Coupled(runs, outbox) && Identified(runs) && op !in runs && op !in outbox
    requires run.status.Reserved? && IdentifiedRun(run) && entry.payload.DispatchJob? && entry.payload.runId == op
    ensures Coupled(runs[op := run], outbox[op := entry]) && Identified(runs[op := run])
    ensures RunsEvolve(runs, runs[op := run], Some((op, run.taskId)))
  {
  }

  /** A reserved run leaves reservation together with its dispatch entry. */
  lemma RunLeaves(runs: map<Id, Run>, outbox: map<Id, Entry>, op: Id, run': Run, started: Option<(Id, Id)>)
    requires Coupled(runs, outbox) && Identified(runs) && op in outbox && outbox[op].payload.DispatchJob?
    requires Forward(runs[op], run') && IdentifiedRun(run') && !run'.status.Reserved?
    ensures Coupled(runs[op := run'], outbox - {op}) && Identified(runs[op := run'])
    ensures RunsEvolve(runs, runs[op := run'], started)
  {
  }

  lemma EntryEnters(runs: map<Id, Run>, outbox: map<Id, Entry>, op: Id, entry: Entry)
    requires Coupled(runs, outbox) && op !in outbox && !entry.payload.DispatchJob?
    requires entry.payload.ControlJob? ==>
               && entry.payload.runId in runs && runs[entry.payload.runId].jobId == Some(entry.payload.jobId)
               && BoundedText(entry.payload.text, 12000)
    ensures Coupled(runs, outbox[op := entry])
  {
    assert forall r :: r in runs && runs[r].status.Reserved? ==> r != op;
  }

  lemma EntryLeaves(runs: map<Id, Run>, outbox: map<Id, Entry>, op: Id)
    requires Coupled(runs, outbox) && op in outbox && !outbox[op].payload.DispatchJob?
    ensures Coupled(runs, outbox - {op})
  {
  }

  lemma OutboxGains(outbox: map<Id, Entry>, op: Id, entry: Entry, c: Change)
    requires op !in outbox && entry.status.Reserved? && Introduced(c) == Some(op) && !c.Attempt?
    ensures OutboxEvolves(outbox, outbox[op := entry], c)
  {
  }

  lemma OutboxLoses(outbox: map<Id, Entry>, c: Change)
    requires c.Acknowledged? && c.receipt.operationId in outbox && outbox[c.receipt.operationId].status.Attempted?
    ensures OutboxEvolves(outbox, outbox - {c.receipt.operationId}, c)
  {
  }

  // -- Decisions touch tasks, asks, rules and settings only ----------------------

  predicate TasksOnly(b: Board, b': Board) {
    && b'.runs == b.runs && b'.outbox == b.outbox
    && AcceptancesEvolve(b.tasks, b'.tasks, b.revision + 1)
    && ReviewsKept(b.tasks, b'.tasks)
  }

  lemma PutTaskOnly(b: Board, id: Id, spec: TaskSpec)
    requires PutTask(b, id, spec).Ok?
    ensures TasksOnly(b, PutTask(b, id, spec).value)
  {
    TaskMovesOn(b.tasks, id, PutTask(b, id, spec).value.tasks[id], b.revision + 1);
  }

  lemma SetStatusOnly(b: Board, id: Id, to: Reopen, reason: string)
    requires SetStatus(b, id, to, reason).Ok?
    ensures TasksOnly(b, SetStatus(b, id, to, reason).value)
  {
    TaskMovesOn(b.tasks, id, SetStatus(b, id, to, reason).value.tasks[id], b.revision + 1);
  }

  lemma MergeOnly(b: Board, s: Id, t: Id)
    requires MergeTasks(b, s, t).Ok?
    ensures TasksOnly(b, MergeTasks(b, s, t).value)
  {
    var b' := MergeTasks(b, s, t).value;
    forall x | x in b'.tasks
      ensures b'.tasks[x].acceptance == b.tasks[x].acceptance
      ensures b'.tasks[x].currentRun == b.tasks[x].currentRun
      ensures b'.tasks[x].status == if x == s then TaskStatus.Merged else b.tasks[x].status
    {
    }
  }

  lemma AcceptOnly(b: Board, id: Id, outcome: string, evidence: seq<FileRef>)
    requires AcceptTask(b, id, outcome, evidence).Ok?
    ensures TasksOnly(b, AcceptTask(b, id, outcome, evidence).value)
  {
    TaskMovesOn(b.tasks, id, AcceptTask(b, id, outcome, evidence).value.tasks[id], b.revision + 1);
  }

  lemma DecideOnly(b: Board, action: Action)
    requires Decide(b, action).Ok?
    ensures TasksOnly(b, Decide(b, action).value)
  {
    match action
    case TaskPut(id, task) => PutTaskOnly(b, id, task);
    case SetTaskStatus(id, to, reason) => SetStatusOnly(b, id, to, reason);
    case TaskMerge(s, t) => MergeOnly(b, s, t);
    case Accept(id, outcome, evidence) => AcceptOnly(b, id, outcome, evidence);
    case AskOpen(_, _) =>
    case AskResolve(_, _, _) =>
    case RulePut(_, _) =>
    case RuleRemove(_) =>
    case SetLimit(_) =>
    case SetCheckpoint(_) =>
    case SetCheckin(_) =>
  }

  lemma DecidedEvolves(b: Board, c: Change)
    requires Inv(b) && c.Decided? && Decide(b, c.action).Ok?
    ensures Evolves(b, Decide(b, c.action).value, c)
  {
    DecideOnly(b, c.action);
    BackedAfter(b.tasks, Decide(b, c.action).value.tasks, b.runs, b.runs);
  }

  // -- Reservations ----------------------------------------------------------------

  lemma StartRunEvolves(b: Board, c: Change, conversation: Conversation)
    requires Inv(b) && c.Dispatch? && c.taskId in b.tasks && c.operationId !in b.runs && c.operationId !in b.outbox
    ensures Evolves(b, StartRun(b, c.operationId, c.taskId, conversation, c.prompt), c)
  {
    var op := c.operationId;
    var b' := StartRun(b, op, c.taskId, conversation, c.prompt);
    RunStarts(b.runs, b.outbox, op, b'.runs[op], b'.outbox[op]);
    OutboxGains(b.outbox, op, b'.outbox[op], c);
    TaskMovesOn(b.tasks, c.taskId, b'.tasks[c.taskId], b.revision + 1);
    BackedAfter(b.tasks, b'.tasks, b.runs, b'.runs);
  }

  lemma ReserveRunStarts(b: Board, op: Id, taskId: Id, anew: bool, prompt: string) returns (conversation: Conversation)
    requires ReserveRun(b, op, taskId, anew, prompt).Ok?
    ensures taskId in b.tasks && op !in b.runs && op !in b.outbox
    ensures ReserveRun(b, op, taskId, anew, prompt).value == StartRun(b, op, taskId, conversation, prompt)
  {
    conversation := if !anew && b.tasks[taskId].conversationId.Some?
                    then Continue(b.tasks[taskId].conversationId.value) else Fresh;
  }

  lemma ReserveControlEvolves(b: Board, c: Change)
    requires Inv(b) && c.Control? && ReserveControl(b, c.operationId, c.runId, c.steer, c.text).Ok?
    ensures Evolves(b, ReserveControl(b, c.operationId, c.runId, c.steer, c.text).value, c)
  {
    var b' := ReserveControl(b, c.operationId, c.runId, c.steer, c.text).value;
    EntryEnters(b.runs, b.outbox, c.operationId, b'.outbox[c.operationId]);
    OutboxGains(b.outbox, c.operationId, b'.outbox[c.operationId], c);
  }

  lemma MarkAttemptedEvolves(b: Board, c: Change)
    requires Inv(b) && c.Attempt? && MarkAttempted(b, c.operationId, c.attemptId, c.effect).Ok?
    ensures Evolves(b, MarkAttempted(b, c.operationId, c.attemptId, c.effect).value, c)
  {
  }

  // -- Receipts ----------------------------------------------------------------------

  lemma DispatchReceiptEvolves(b: Board, c: Change)
    requires Inv(b) && c.Acknowledged? && c.receipt.Dispatched? && Acknowledge(b, c.receipt).Ok?
    ensures Evolves(b, Acknowledge(b, c.receipt).value, c)
  {
    var op := c.receipt.operationId;
    var b' := Acknowledge(b, c.receipt).value;
    var t := b.runs[op].taskId;
    RunLeaves(b.runs, b.outbox, op, b'.runs[op], Started(c));
    OutboxLoses(b.outbox, c);
    TaskMovesOn(b.tasks, t, b'.tasks[t], b.revision + 1);
    BackedAfter(b.tasks, b'.tasks, b.runs, b'.runs);
  }

  lemma RejectedReceiptEvolves(b: Board, c: Change)
    requires Inv(b) && c.Acknowledged? && c.receipt.Rejected? && Acknowledge(b, c.receipt).Ok?
    ensures Evolves(b, Acknowledge(b, c.receipt).value, c)
  {
    var op := c.receipt.operationId;
    var b' := Acknowledge(b, c.receipt).value;
    OutboxLoses(b.outbox, c);
    if b.outbox[op].payload.DispatchJob? {
      var t := b.runs[op].taskId;
      RunLeaves(b.runs, b.outbox, op, b'.runs[op], Started(c));
      TaskMovesOn(b.tasks, t, b'.tasks[t], b.revision + 1);
      BackedAfter(b.tasks, b'.tasks, b.runs, b'.runs);
    } else {
      EntryLeaves(b.runs, b.outbox, op);
    }
  }

  lemma OtherReceiptEvolves(b: Board, c: Change)
    requires Inv(b) && c.Acknowledged? && (c.receipt.Controlled? || c.receipt.Woken?) && Acknowledge(b, c.receipt).Ok?
    ensures Evolves(b, Acknowledge(b, c.receipt).value, c)
  {
    var op := c.receipt.operationId;
    var b' := Acknowledge(b, c.receipt).value;
    OutboxLoses(b.outbox, c);
    EntryLeaves(b.runs, b.outbox, op);
    if b'.tasks != b.tasks {
      var t := b.runs[b.outbox[op].payload.runId].taskId;
      TaskMovesOn(b.tasks, t, b'.tasks[t], b.revision + 1);
      BackedAfter(b.tasks, b'.tasks, b.runs, b'.runs);
    }
  }

  // -- Provider events ----------------------------------------------------------------

  /** A provider event before its wake: the outbox is untouched and the rest evolves. */
  predicate EventEvolves(b: Board, b': Board) {
    && b'.outbox == b.outbox && Inv(b')
    && RunsEvolve(b.runs, b'.runs, None)
    && AcceptancesEvolve(b.tasks, b'.tasks, b.revision + 1)
  }

  lemma SaveProgressEvolves(b: Board, runId: Id, jobId: Id, progress: Progress)
    requires Inv(b) && SaveProgress(b, runId, jobId, progress).Ok?
    ensures EventEvolves(b, SaveProgress(b, runId, jobId, progress).value)
  {
    var b' := SaveProgress(b, runId, jobId, progress).value;
    if progress.sequence > b.runs[runId].observedSequence {
      RunMovesOn(b.runs, b.outbox, runId, b'.runs[runId], None);
      BackedAfter(b.tasks, b'.tasks, b.runs, b'.runs);
    }
  }

  lemma SaveReportEvolves(b: Board, runId: Id, jobId: Id, report: FileRef)
    requires Inv(b) && SaveReportClaim(b, runId, jobId, report).Ok?
    ensures EventEvolves(b, SaveReportClaim(b, runId, jobId, report).value)
  {
    var b' := SaveReportClaim(b, runId, jobId, report).value;
    RunMovesOn(b.runs, b.outbox, runId, b'.runs[runId], None);
    BackedAfter(b.tasks, b'.tasks, b.runs, b'.runs);
  }

  lemma SaveResultEvolves(b: Board, runId: Id, jobId: Id, settlement: Settlement, report: FileRef)
    requires Inv(b) && ValidRuns(b.tasks, b.runs) && SaveResult(b, runId, jobId, settlement, report).Ok?
    ensures EventEvolves(b, SaveResult(b, runId, jobId, settlement, report).value)
  {
    var b' := SaveResult(b, runId, jobId, settlement, report).value;
    var t := b.runs[runId].taskId;
    assert ValidRun(b.tasks, runId, b.runs[runId]);
    RunMovesOn(b.runs, b.outbox, runId, b'.runs[runId], None);
    ReviewEnters(b.tasks, b.runs, t, b'.tasks[t], runId, b'.runs[runId]);
    assert AcceptancesEvolve(b.tasks, b'.tasks, b.revision + 1);
  }

  lemma MarkUnavailableEvolves(b: Board, runId: Id, jobId: Id)
    requires Inv(b) && MarkUnavailable(b, runId, jobId).Ok?
    ensures EventEvolves(b, MarkUnavailable(b, runId, jobId).value)
  {
    var b' := MarkUnavailable(b, runId, jobId).value;
    var t := b.runs[runId].taskId;
    RunMovesOn(b.runs, b.outbox, runId, b'.runs[runId], None);
    TaskMovesOn(b.tasks, t, b'.tasks[t], b.revision + 1);
    BackedAfter(b.tasks, b'.tasks, b.runs, b'.runs);
  }

  lemma SaveEventEvolves(b: Board, e: Event)
    requires Inv(b) && ValidRuns(b.tasks, b.runs) && SaveEvent(b, e).Ok?
    ensures EventEvolves(b, SaveEvent(b, e).value)
  {
    match e
    case Progressed(runId, jobId, progress) => SaveProgressEvolves(b, runId, jobId, progress);
    case Reported(runId, jobId, report) => SaveReportEvolves(b, runId, jobId, report);
    case Settled(runId, jobId, settlement, report) => SaveResultEvolves(b, runId, jobId, settlement, report);
    case Unavailable(runId, jobId) => MarkUnavailableEvolves(b, runId, jobId);
    case Decision(askId, reply) =>
  }

  lemma WakeEvolves(b: Board, mid: Board, c: Change)
    requires c.Provider? && EventEvolves(b, mid) && AddWake(mid, c.wake).Ok?
    ensures Evolves(b, AddWake(mid, c.wake).value, c)
  {
    if c.wake.Some? {
      var op := c.wake.value.operationId;
      var b' := AddWake(mid, c.wake).value;
      EntryEnters(mid.runs, mid.outbox, op, b'.outbox[op]);
      OutboxGains(b.outbox, op, b'.outbox[op], c);
    }
  }

  // -- Every change ------------------------------------------------------------------

  lemma TransformEvolves(b: Board, c: Change)
    requires Inv(b) && ValidRuns(b.tasks, b.runs) && Transform(b, c).Ok?
    ensures Evolves(b, Transform(b, c).value, c)
  {
    match c
    case Decided(action) => DecidedEvolves(b, c);
    case Dispatch(op, taskId, anew, prompt) =>
      var conversation := ReserveRunStarts(b, op, taskId, anew, prompt);
      StartRunEvolves(b, c, conversation);
    case Control(_, _, _, _) => ReserveControlEvolves(b, c);
    case Attempt(_, _, _) => MarkAttemptedEvolves(b, c);
    case Acknowledged(receipt) =>
      if receipt.Dispatched? { DispatchReceiptEvolves(b, c); }
      else if receipt.Rejected? { RejectedReceiptEvolves(b, c); }
      else { OtherReceiptEvolves(b, c); }
    case Provider(event, _) =>
      SaveEventEvolves(b, event);
      WakeEvolves(b, SaveEvent(b, event).value, c);
  }

  lemma RetainEvolves(b: Board, mid: Board, c: Change)
    requires Evolves(b, mid, c)
    ensures Evolves(b, RetainCurrentRuns(mid), c)
  {
  }

  /** Every committed change keeps the invariant and moves each record as described. */
  lemma CommitEvolves(b: Board, c: Change, next: Board)
    requires Inv(b) && ValidRuns(b.tasks, b.runs) && Commits(b, c, next)
    ensures Evolves(b, next, c) && next.revision == b.revision + 1 && ValidRuns(next.tasks, next.runs)
  {
    TransformEvolves(b, c);
    RetainEvolves(b, Transform(b, c).value, c);
  }
}

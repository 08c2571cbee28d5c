/** What becomes of tasks and asks: who may move them, what a result leads to, and that acceptance can be reached. */
module Outcomes {
  import opened Values
  import opened Boards
  import opened Policy
  import opened Invariant
  import opened Store
  import opened Service
  import opened AtMostOnce
  import opened Executions
  import opened Ledger
  import opened Guards
  import opened Lifecycles
  import opened RunLifecycles
  import opened Chronicle

  // -- Results -----------------------------------------------------------------------------------

  /** A completed result puts its task under review, still naming the run; any other blocks it and says why. The run has the
      settlement's own status and the given report. */
  predicate Resolved(b: Board, r: Id, how: Settlement, report: FileRef, after: Board) {
    && r in b.runs && r in after.runs && after.runs[r].report == Some(report)
    && (after.runs[r].status.Completed? <==> how.AsCompleted?) && (after.runs[r].status.Failed? <==> how.AsFailed?)
    && (after.runs[r].status.Cancelled? <==> how.AsCancelled?)
    && var t := b.runs[r].taskId;
       && t in after.tasks && after.tasks[t].currentRun == Some(r)
       && (after.tasks[t].status.Review? <==> how.AsCompleted?)
       && (!how.AsCompleted? ==> after.tasks[t].status.Blocked?)
       && (how.AsFailed? ==> after.tasks[t].reason == Some(WorkerFailed))
       && (how.AsCancelled? ==> after.tasks[t].reason == Some(WorkerCancelled))
  }

  lemma LiveRunIsCurrent(b: Board, r: Id)
    requires ValidRuns(b.tasks, b.runs) && r in b.runs && IsLive(b.runs[r])
    ensures b.runs[r].taskId in b.tasks && b.tasks[b.runs[r].taskId].currentRun == Some(r) && b.tasks[b.runs[r].taskId].status.Running?
  {
    assert ValidRun(b.tasks, r, b.runs[r]);
  }

  lemma SettledTaskFollows(b: Board, r: Id, job: Id, how: Settlement, report: FileRef, wake: Option<Wake>, after: Board)
    requires r in b.runs && b.runs[r].taskId in b.tasks && b.tasks[b.runs[r].taskId].currentRun == Some(r)
    requires TaskFollows(b, Provider(Settled(r, job, how, report), wake), b.runs[r].taskId, after.tasks)
    requires KeptAt(b, Provider(Settled(r, job, how, report), wake), r, after)
    ensures Resolved(b, r, how, report, after)
  {
    var t := b.runs[r].taskId;
    assert t in after.tasks && after.tasks[t].currentRun == Some(r);
    assert Mentions(after, r);
  }

  lemma SettledResolves(b: Board, r: Id, job: Id, how: Settlement, report: FileRef, wake: Option<Wake>, after: Board)
    requires ValidRuns(b.tasks, b.runs) && MaySave(b, Settled(r, job, how, report))
    requires Follows(b, Provider(Settled(r, job, how, report), wake), after)
    ensures Resolved(b, r, how, report, after)
  {
    LiveRunIsCurrent(b, r);
    assert TaskFollows(b, Provider(Settled(r, job, how, report), wake), b.runs[r].taskId, after.tasks);
    assert KeptAt(b, Provider(Settled(r, job, how, report), wake), r, after);
    SettledTaskFollows(b, r, job, how, report, wake, after);
  }

  /** On every run, every committed result resolves its task as the settlement says. */
  lemma EveryResultResolves(ws: seq<World>, i: nat, k: nat, r: Id, job: Id, how: Settlement, report: FileRef, wake: Option<Wake>)
    requires Execution(ws) && i < |ws| && k < |ws[i].log| && ws[i].log[k].change == Provider(Settled(r, job, how, report), wake)
    ensures Resolved(Current(ws[i].conversation, ws[i].log[..k]), r, how, report, ws[i].log[k].board)
  {
    EveryRevisionSound(ws, i, k);
    EveryChangePermitted(ws, i, k);
    EveryRevisionFollows(ws, i, k);
    SettledResolves(Current(ws[i].conversation, ws[i].log[..k]), r, job, how, report, wake, ws[i].log[k].board);
  }

  /** Accepting the task is answered, and leaves it done by that run. */
  predicate Acceptable(b: Board, t: Id, r: Id, outcome: string, evidence: seq<FileRef>) {
    var accepted := Decide(b, Accept(t, outcome, evidence));
    && accepted.Ok? && t in accepted.value.tasks && accepted.value.tasks[t].status.Done?
    && accepted.value.tasks[t].acceptance == Some(Acceptance(b.revision + 1, r, outcome, evidence))
  }

  lemma ReviewIsAcceptable(b: Board, t: Id, r: Id, outcome: string, evidence: seq<FileRef>)
    requires NoLive(b, t) && t in b.tasks && b.tasks[t].status.Review? && b.tasks[t].currentRun == Some(r)
    requires ValidRefs(evidence) && evidence != [] && BoundedText(outcome, 2000)
    ensures Acceptable(b, t, r, outcome, evidence)
  {
  }

  lemma ResolvedIsAcceptable(b: Board, r: Id, report: FileRef, after: Board, outcome: string, evidence: seq<FileRef>)
    requires Resolved(b, r, AsCompleted, report, after) && Valid(after) && Inv(after)
    requires ValidRefs(evidence) && evidence != [] && BoundedText(outcome, 2000)
    ensures Acceptable(after, b.runs[r].taskId, r, outcome, evidence)
  {
    TasksAreSteady(after);
    ReviewIsAcceptable(after, b.runs[r].taskId, r, outcome, evidence);
  }

  /** Acceptance can be reached: from the Board a completed result leaves, accepting its task with any valid evidence and
      outcome is answered. */
  lemma CompletedCanBeAccepted(ws: seq<World>, i: nat, k: nat, r: Id, job: Id, report: FileRef, wake: Option<Wake>, outcome: string, evidence: seq<FileRef>)
    requires Execution(ws) && i < |ws| && k < |ws[i].log| && ws[i].log[k].change == Provider(Settled(r, job, AsCompleted, report), wake)
    requires ValidRefs(evidence) && evidence != [] && BoundedText(outcome, 2000)
    ensures r in Current(ws[i].conversation, ws[i].log[..k]).runs
    ensures Acceptable(ws[i].log[k].board, Current(ws[i].conversation, ws[i].log[..k]).runs[r].taskId, r, outcome, evidence)
  {
    EveryResultResolves(ws, i, k, r, job, AsCompleted, report, wake);
    EveryRevisionSound(ws, i, k + 1);
    assert Current(ws[i].conversation, ws[i].log[..k + 1]) == ws[i].log[k].board;
    ResolvedIsAcceptable(Current(ws[i].conversation, ws[i].log[..k]), r, report, ws[i].log[k].board, outcome, evidence);
  }

  // -- Statuses ------------------------------------------------------------------------------------

  /** Said now, or put on the Board now, queued. */
  predicate SaidAt(before: Board, c: Change, t: Id, status: TaskStatus) {
    || StatusSaid(before, c, t) == Some(status)
    || (t !in before.tasks && PutSaid(c, t).Some? && status.Queued?)
  }

  predicate SilentSince(conversation: Id, log: Log, t: Id, j: nat) {
    forall m :: j < m < |log| ==> StatusSaid(Current(conversation, log[..m]), log[m].change, t).None?
  }

  /** A task's status is what the last change that spoke about it said, or what it was put as. */
  lemma {:induction false} StatusWasSaid(conversation: Id, log: Log, t: Id) returns (j: nat)
    requires Chained(conversation, log, Following()) && t in Current(conversation, log).tasks
    ensures j < |log| && SaidAt(Current(conversation, log[..j]), log[j].change, t, Current(conversation, log).tasks[t].status)
    ensures SilentSince(conversation, log, t, j)
    decreases |log|
  {
    var before, last := Current(conversation, Init(log)), |log| - 1;
    assert Following()(before, Last(log).change, Last(log).board);
    assert TaskFollows(before, Last(log).change, t, Last(log).board.tasks);
    assert log[..last] == Init(log);
    if StatusSaid(before, Last(log).change, t).Some? || t !in before.tasks {
      j := last;
    } else {
      j := StatusWasSaid(conversation, Init(log), t);
      SilentLonger(conversation, log, t, j);
      assert Init(log)[..j] == log[..j] && Init(log)[j] == log[j];
    }
  }

  lemma SilentLonger(conversation: Id, log: Log, t: Id, j: nat)
    requires log != [] && SilentSince(conversation, Init(log), t, j) && StatusSaid(Current(conversation, Init(log)), Last(log).change, t).None?
    ensures SilentSince(conversation, log, t, j)
  {
    forall m | j < m < |log|
      ensures StatusSaid(Current(conversation, log[..m]), log[m].change, t).None?
    {
      if m < |log| - 1 {
        assert Init(log)[..m] == log[..m] && Init(log)[m] == log[m];
      } else {
        assert log[..m] == Init(log);
      }
    }
  }

  /** On every run, the status of every task shown was said by the last change that spoke about it. */
  lemma EveryStatusWasSaid(ws: seq<World>, i: nat, t: Id) returns (j: nat)
    requires Execution(ws) && i < |ws| && t in ws[i].pages.board.tasks
    ensures j < |ws[i].log|
    ensures SaidAt(Current(ws[i].conversation, ws[i].log[..j]), ws[i].log[j].change, t, ws[i].pages.board.tasks[t].status)
    ensures SilentSince(ws[i].conversation, ws[i].log, t, j)
  {
    RunSafe(ws, i);
    EveryLogHonoured(ws, i);
    LogFollows(ws[i].conversation, ws[i].log);
    j := StatusWasSaid(ws[i].conversation, ws[i].log, t);
  }

  // -- What no change touches -----------------------------------------------------------------------

  predicate Closed(ask: Ask) {
    ask.status.Answered? || ask.status.Superseded? || ask.status.Dismissed?
  }

  /** The task's work: what it is to do, how it stands and who did it; where it came from and waits for is kept apart. */
  predicate SameWork(task: Task, task': Task) {
    && task'.key == task.key && task'.title == task.title && task'.brief == task.brief && task'.access == task.access
    && task'.status == task.status && task'.reason == task.reason && task'.currentRun == task.currentRun
    && task'.evidence == task.evidence && task'.acceptance == task.acceptance && task'.mergedInto == task.mergedInto
  }

  /** Only a decision about the task could speak, and the Board does not permit one. */
  lemma DecisionLeavesWork(b: Board, action: Action, t: Id, after: map<Id, Task>)
    requires MayDecide(b, action) && t in b.tasks && (b.tasks[t].status.Running? || b.tasks[t].status.Merged?)
    requires TaskFollows(b, Decided(action), t, after)
    ensures t in after && SameWork(b.tasks[t], after[t])
  {
  }

  lemma NoWorkerOfMerged(b: Board, t: Id, r: Id)
    requires ValidRuns(b.tasks, b.runs) && t in b.tasks && b.tasks[t].status.Merged? && r in b.runs && IsLive(b.runs[r])
    ensures b.runs[r].taskId != t
  {
    assert ValidRun(b.tasks, r, b.runs[r]);
  }

  lemma MergedIsSilent(b: Board, c: Change, t: Id)
    requires ValidRuns(b.tasks, b.runs) && Coupled(b.runs, b.outbox) && May(b, c) && t in b.tasks && b.tasks[t].status.Merged?
    ensures !c.Decided? ==> StatusSaid(b, c, t).None? && ReasonSaid(b, c, t).None? && CurrentSaid(c, t).None? && BriefSaid(b, c, t).None?
  {
    if c.Provider? && !c.event.Decision? && IsLive(b.runs[c.event.runId]) {
      NoWorkerOfMerged(b, t, c.event.runId);
    }
    if c.Acknowledged? && !b.outbox[c.receipt.operationId].payload.WakeChief? && IsLive(b.runs[b.outbox[c.receipt.operationId].payload.runId]) {
      NoWorkerOfMerged(b, t, b.outbox[c.receipt.operationId].payload.runId);
    }
  }

  /** No decision touches the work of a task whose worker runs, and nothing touches that of a merged task. */
  lemma WorkLeftAlone(b: Board, c: Change, after: Board, t: Id)
    requires ValidRuns(b.tasks, b.runs) && Coupled(b.runs, b.outbox) && May(b, c) && Follows(b, c, after)
    requires t in b.tasks && (b.tasks[t].status.Merged? || (b.tasks[t].status.Running? && c.Decided?))
    ensures t in after.tasks && SameWork(b.tasks[t], after.tasks[t])
  {
    assert TaskFollows(b, c, t, after.tasks);
    if c.Decided? {
      DecisionLeavesWork(b, c.action, t, after.tasks);
    } else {
      MergedIsSilent(b, c, t);
    }
  }

  /** A closed ask is never touched again, and a reply given stands. */
  lemma AskLeftAlone(b: Board, c: Change, after: Board, a: Id)
    requires May(b, c) && Follows(b, c, after) && a in b.asks
    ensures a in after.asks && (Closed(b.asks[a]) ==> after.asks[a] == b.asks[a])
    ensures b.asks[a].reply.Some? && !b.asks[a].status.Open? ==> after.asks[a].reply == b.asks[a].reply
  {
    assert AskAt(b, c, a, after.asks);
  }

  /** A merged task's work and a closed ask are as they were. */
  predicate FinalKept(before: Board, after: Board, t: Id, a: Id) {
    && (t in before.tasks && before.tasks[t].status.Merged? ==> t in after.tasks && SameWork(before.tasks[t], after.tasks[t]))
    && (a in before.asks && Closed(before.asks[a]) ==> a in after.asks && after.asks[a] == before.asks[a])
  }

  lemma ChangeKeepsFinal(b: Board, c: Change, after: Board, t: Id, a: Id)
    requires ValidRuns(b.tasks, b.runs) && Coupled(b.runs, b.outbox) && May(b, c) && Follows(b, c, after)
    ensures FinalKept(b, after, t, a)
  {
    if t in b.tasks && b.tasks[t].status.Merged? {
      WorkLeftAlone(b, c, after, t);
    }
    if a in b.asks {
      AskLeftAlone(b, c, after, a);
    }
  }

  lemma RevisionKeepsFinal(ws: seq<World>, i: nat, k: nat, t: Id, a: Id)
    requires Execution(ws) && i < |ws| && k < |ws[i].log|
    ensures FinalKept(Current(ws[i].conversation, ws[i].log[..k]), ws[i].log[k].board, t, a)
  {
    EveryRevisionSound(ws, i, k);
    EveryChangePermitted(ws, i, k);
    EveryRevisionFollows(ws, i, k);
    ChangeKeepsFinal(Current(ws[i].conversation, ws[i].log[..k]), ws[i].log[k].change, ws[i].log[k].board, t, a);
  }

  /** On every run, between any two revisions: a merged task's work and a closed ask stay as they were. */
  lemma {:induction false} FinalStays(ws: seq<World>, i: nat, k: nat, m: nat, t: Id, a: Id)
    requires Execution(ws) && i < |ws| && k <= m <= |ws[i].log|
    ensures FinalKept(Current(ws[i].conversation, ws[i].log[..k]), Current(ws[i].conversation, ws[i].log[..m]), t, a)
    decreases m
  {
    if k < m {
      FinalStays(ws, i, k, m - 1, t, a);
      RevisionKeepsFinal(ws, i, m - 1, t, a);
      assert Current(ws[i].conversation, ws[i].log[..m]) == ws[i].log[m - 1].board;
    }
  }
}

/** Properties of whole committed histories: attempts, runs and acceptances. */
module History {
  import opened Values
  import opened Boards
  import opened Policy
  import opened Invariant
  import opened Store

  // -- Outbox operations ----------------------------------------------------------

  predicate EverIntroduced(log: Log, op: Id) {
    log != [] && (Introduced(Last(log).change) == Some(op) || EverIntroduced(Init(log), op))
  }

  /** The attempts committed for an operation, in order. */
  function Attempts(log: Log, op: Id): seq<(Id, Effect)> {
    if log == [] then []
    else
      var c := Last(log).change;
      Attempts(Init(log), op) + if c.Attempt? && c.operationId == op then [(c.attemptId, c.effect)] else []
  }

  /** The operation whose commit can introduce `op`. */
  function Introducer(op: Id): Id {
    if op.Child? && op.phase.WakePhase? then op.parent else op
  }

  lemma {:induction false} IntroducedByOperation(conversation: Id, files: Files, log: Log, op: Id)
    requires Tracked(conversation, files, log) && EverIntroduced(log, op)
    ensures Introducer(op) in Operations(log)
    decreases |log|
  {
    if Introduced(Last(log).change) != Some(op) {
      IntroducedByOperation(conversation, files, Init(log), op);
    }
  }

  /** Where an operation stands between the log and the outbox. */
  predicate Standing(log: Log, outbox: map<Id, Entry>, op: Id) {
    && (op in outbox && outbox[op].status.Reserved? ==> EverIntroduced(log, op) && Attempts(log, op) == [])
    && (op in outbox && outbox[op].status.Attempted? ==>
          EverIntroduced(log, op) && Attempts(log, op) == [(outbox[op].status.attemptId, outbox[op].status.effect)])
    && (op !in outbox && EverIntroduced(log, op) ==> |Attempts(log, op)| == 1)
    && (!EverIntroduced(log, op) ==> Attempts(log, op) == [])
  }

  lemma StandingMoves(log: Log, before: map<Id, Entry>, after: map<Id, Entry>, op: Id)
    requires log != [] && Standing(Init(log), before, op) && OutboxEvolves(before, after, Last(log).change)
    requires Introduced(Last(log).change) == Some(op) ==> !EverIntroduced(Init(log), op)
    ensures Standing(log, after, op)
  {
  }

  /** An operation is attempted at most once in any history: never while its entry is
      reserved, exactly once from then on. */
  lemma {:induction false} AttemptedAtMostOnce(conversation: Id, files: Files, log: Log, op: Id)
    requires Tracked(conversation, files, log)
    ensures Standing(log, Current(conversation, log).outbox, op)
    decreases |log|
  {
    if log != [] {
      AttemptedAtMostOnce(conversation, files, Init(log), op);
      if Introduced(Last(log).change) == Some(op) && EverIntroduced(Init(log), op) {
        IntroducedByOperation(conversation, files, Init(log), op);
      }
      StandingMoves(log, Current(conversation, Init(log)).outbox, Current(conversation, log).outbox, op);
    }
  }

  // -- Runs ---------------------------------------------------------------------------

  lemma {:induction false} RunIsOperation(conversation: Id, files: Files, log: Log, r: Id)
    requires Tracked(conversation, files, log) && r in Current(conversation, log).runs
    ensures r in Operations(log)
    decreases |log|
  {
    if r in Current(conversation, Init(log)).runs {
      RunIsOperation(conversation, files, Init(log), r);
    }
  }

  lemma ForwardComposes(a: Run, b: Run, c: Run)
    requires Forward(a, b) && Forward(b, c)
    ensures Forward(a, c)
  {
  }

  lemma {:induction false} OperationsGrow(log: Log, k: nat, op: Id)
    requires k <= |log| && op in Operations(log[..k])
    ensures op in Operations(log)
    decreases |log|
  {
    if k < |log| {
      assert Init(log)[..k] == log[..k];
      OperationsGrow(Init(log), k, op);
    } else {
      assert log[..k] == log;
    }
  }

  /** Between any two revisions a run id moves only forward: the same task, a job and a
      conversation set at most once, and nothing at all once settled. */
  lemma {:induction false} RunsOnlyForward(conversation: Id, files: Files, log: Log, k: nat, r: Id)
    requires Tracked(conversation, files, log) && k <= |log|
    requires r in Current(conversation, log[..k]).runs && r in Current(conversation, log).runs
    ensures Forward(Current(conversation, log[..k]).runs[r], Current(conversation, log).runs[r])
    decreases |log|
  {
    if k == |log| {
      assert log[..k] == log;
    } else {
      assert Init(log)[..k] == log[..k];
      TrackedPrefix(conversation, files, log, k);
      RunIsOperation(conversation, files, log[..k], r);
      OperationsGrow(Init(log), k, r);
      RunsOnlyForward(conversation, files, Init(log), k, r);
      ForwardComposes(Current(conversation, log[..k]).runs[r], Current(conversation, Init(log)).runs[r],
                      Current(conversation, log).runs[r]);
    }
  }

  /** A run id that has left the Board never returns to it. */
  lemma {:induction false} RetiredNeverReturns(conversation: Id, files: Files, log: Log, k: nat, m: nat, r: Id)
    requires Tracked(conversation, files, log) && k <= m <= |log|
    requires r in Current(conversation, log[..k]).runs && r !in Current(conversation, log[..m]).runs
    ensures r !in Current(conversation, log).runs
    decreases |log|
  {
    if m == |log| {
      assert log[..m] == log;
    } else {
      assert Init(log)[..k] == log[..k] && Init(log)[..m] == log[..m];
      TrackedPrefix(conversation, files, log, k);
      RunIsOperation(conversation, files, log[..k], r);
      OperationsGrow(Init(log), k, r);
      RetiredNeverReturns(conversation, files, Init(log), k, m, r);
    }
  }

  /** Every run on a Board was dispatched, under its own id and for its own task. */
  lemma {:induction false} RunWasDispatched(conversation: Id, files: Files, log: Log, r: Id) returns (j: nat)
    requires Tracked(conversation, files, log) && r in Current(conversation, log).runs
    ensures j < |log| && log[j].change.Dispatch? && log[j].change.operationId == r
    ensures log[j].change.taskId == Current(conversation, log).runs[r].taskId
    decreases |log|
  {
    if r in Current(conversation, Init(log)).runs {
      j := RunWasDispatched(conversation, files, Init(log), r);
    } else {
      j := |log| - 1;
    }
  }

  // -- Acceptances -----------------------------------------------------------------------

  /** At revision `a.revision` this acceptance was committed for a task then under review,
      whose current run had settled completed, with a report, at an earlier revision. */
  predicate AcceptedAt(conversation: Id, log: Log, t: Id, a: Acceptance) {
    && 0 < a.revision <= |log|
    && var before := Current(conversation, log[..a.revision - 1]);
       var after := Current(conversation, log[..a.revision]);
       && t in before.tasks && before.tasks[t].status.Review? && before.tasks[t].currentRun == Some(a.runId)
       && a.runId in before.runs && before.runs[a.runId].taskId == t
       && before.runs[a.runId].status.Completed? && before.runs[a.runId].report.Some?
       && t in after.tasks && after.tasks[t].acceptance == Some(a)
  }

  lemma AcceptedNow(conversation: Id, files: Files, log: Log, t: Id)
    requires Tracked(conversation, files, log) && log != []
    requires t in Last(log).board.tasks && Last(log).board.tasks[t].acceptance.Some?
    requires t in Current(conversation, Init(log)).tasks ==>
               Current(conversation, Init(log)).tasks[t].acceptance != Last(log).board.tasks[t].acceptance
    ensures AcceptedAt(conversation, log, t, Last(log).board.tasks[t].acceptance.value)
  {
    TrackedInv(conversation, files, Init(log));
    assert log[..|log|] == log;
  }

  lemma AcceptedStays(conversation: Id, log: Log, t: Id, a: Acceptance)
    requires log != [] && AcceptedAt(conversation, Init(log), t, a)
    ensures AcceptedAt(conversation, log, t, a)
  {
    assert Init(log)[..a.revision] == log[..a.revision];
    assert Init(log)[..a.revision - 1] == log[..a.revision - 1];
  }

  /** In every history an acceptance, and so every done task's, names the revision that
      committed it and a run that had completed, with a report, for that same task. */
  lemma {:induction false} AcceptanceIsEarned(conversation: Id, files: Files, log: Log, t: Id)
    requires Tracked(conversation, files, log)
    requires t in Current(conversation, log).tasks && Current(conversation, log).tasks[t].acceptance.Some?
    ensures AcceptedAt(conversation, log, t, Current(conversation, log).tasks[t].acceptance.value)
    decreases |log|
  {
    var a := Current(conversation, log).tasks[t].acceptance;
    var before := Current(conversation, Init(log));
    if t in before.tasks && before.tasks[t].acceptance == a {
      AcceptanceIsEarned(conversation, files, Init(log), t);
      AcceptedStays(conversation, log, t, a.value);
    } else {
      AcceptedNow(conversation, files, log, t);
    }
  }

  /** And that run had been dispatched for the accepted task before it completed. */
  lemma AcceptedRunWasDispatched(conversation: Id, files: Files, log: Log, t: Id) returns (j: nat)
    requires Tracked(conversation, files, log)
    requires t in Current(conversation, log).tasks && Current(conversation, log).tasks[t].acceptance.Some?
    ensures var a := Current(conversation, log).tasks[t].acceptance.value;
            j + 1 < a.revision <= |log| && log[j].change.Dispatch?
            && log[j].change.operationId == a.runId && log[j].change.taskId == t
  {
    var a := Current(conversation, log).tasks[t].acceptance.value;
    AcceptanceIsEarned(conversation, files, log, t);
    TrackedPrefix(conversation, files, log, a.revision - 1);
    j := RunWasDispatched(conversation, files, log[..a.revision - 1], a.runId);
  }
}

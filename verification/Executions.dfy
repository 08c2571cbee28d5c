/** The protocol's promises over whole runs of the system. */
module Executions {
  import opened Values
  import opened Boards
  import opened Policy
  import opened Store
  import opened History
  import opened Service
  import opened AtMostOnce

  lemma {:induction false} RunSafe(ws: seq<World>, i: nat)
    requires Execution(ws) && i < |ws|
    ensures Safe(ws[i])
  {
    if i == 0 {
      InitialSafe(ws[0]);
    } else {
      RunSafe(ws, i - 1);
      assert StepAt(ws, i - 1);
      StepKeeps(ws[i - 1], ws[i]);
    }
  }

  /** Over every run, no operation's external effect is submitted twice, and whatever was
      submitted is the one attempt committed for that operation beforehand. */
  lemma SubmittedAtMostOnce(ws: seq<World>, i: nat)
    requires Execution(ws) && i < |ws|
    ensures forall a, b :: 0 <= a < b < |ws[i].submissions| ==>
              ws[i].submissions[a].operationId != ws[i].submissions[b].operationId
    ensures forall a :: 0 <= a < |ws[i].submissions| ==>
              Attempts(ws[i].log, ws[i].submissions[a].operationId) ==
              [(ws[i].submissions[a].attemptId, ws[i].submissions[a].effect)]
  {
    RunSafe(ws, i);
    forall a, b | 0 <= a < b < |ws[i].submissions|
      ensures ws[i].submissions[a].operationId != ws[i].submissions[b].operationId
    {
      assert Attempts(ws[i].log, ws[i].submissions[a].operationId)
          == [(ws[i].submissions[a].attemptId, ws[i].submissions[a].effect)];
    }
  }

  // -- Once attempted, only receipts are inspected ---------------------------------------

  function SubmissionsOf(submissions: seq<Submission>, op: Id): seq<Submission> {
    if submissions == [] then []
    else
      var last := submissions[|submissions| - 1];
      SubmissionsOf(submissions[..|submissions| - 1], op) + if last.operationId == op then [last] else []
  }

  /** `op` has been attempted and no caller is about to submit it. */
  predicate Spent(w: World, op: Id) {
    && Attempts(w.log, op) != []
    && forall pid :: pid in w.callers && w.callers[pid].SubmitEffect? ==> w.callers[pid].operationId != op
  }

  /** Nothing else changed for `op`: no submission, and no new caller about to submit it. */
  predicate Inspects(w: World, w': World, op: Id) {
    && SubmissionsOf(w'.submissions, op) == SubmissionsOf(w.submissions, op)
    && forall pid :: pid in w'.callers && w'.callers[pid].SubmitEffect? && w'.callers[pid].operationId == op ==>
         pid in w.callers && w.callers[pid] == w'.callers[pid]
  }

  lemma AttemptCounts(log: Log, e: LogEntry, op: Id)
    requires e.change.Attempt? && e.change.operationId == op
    ensures |Attempts(log + [e], op)| == |Attempts(log, op)| + 1
  {
    assert Init(log + [e]) == log;
  }

  lemma CommitInspects(w: World, w': World, pid: nat, op: Id)
    requires pid in w.callers && CommitStep(w, w', pid)
    requires Claiming(w.log, w.nextUuid, w.callers[pid].request, w.callers[pid].after)
    requires Attempts(w'.log, op) == Attempts(w.log, op)
    ensures Inspects(w, w', op)
  {
    var c := w.callers[pid];
    if c.after.SubmitAttempt? && c.after.operationId == op {
      AttemptCounts(w.log, EntryOf(c), op);
    }
  }

  lemma CommitKeepsAttempts(w: World, w': World, pid: nat, op: Id)
    requires Safe(w) && pid in w.callers && CommitStep(w, w', pid) && Attempts(w.log, op) != []
    ensures Claiming(w.log, w.nextUuid, w.callers[pid].request, w.callers[pid].after)
    ensures Attempts(w'.log, op) == Attempts(w.log, op)
  {
    assert CallerOk(w, w.callers[pid]);
    SwapKeeps(w, pid);
    AttemptsStay(w.conversation, w.files, w.log, EntryOf(w.callers[pid]), op);
  }

  lemma DuplicateInspects(w: World, w': World, pid: nat, op: Id)
    requires pid in w.callers && DuplicateStep(w, w', pid)
    requires Claiming(w.log, w.nextUuid, w.callers[pid].request, w.callers[pid].after)
    ensures Inspects(w, w', op)
  {
    OperationsAre(w.log, w.callers[pid].request.operationId);
  }

  lemma SubmitInspects(w: World, w': World, pid: nat, op: Id)
    requires pid in w.callers && SubmitStep(w, w', pid) && w.callers[pid].operationId != op
    ensures Inspects(w, w', op)
  {
    var last := w'.submissions[|w.submissions|];
    assert w'.submissions[..|w.submissions|] == w.submissions;
  }

  /** A step that submits nothing, commits nothing and makes no one a submitter. */
  predicate Quiet(w: World, w': World, pid: nat) {
    && w'.submissions == w.submissions && w'.log == w.log
    && (pid in w'.callers ==> !w'.callers[pid].SubmitEffect?)
    && forall p :: p in w'.callers && p != pid ==> p in w.callers && w.callers[p] == w'.callers[p]
  }

  lemma ReadQuiet(w: World, w': World, pid: nat, next: Option<Caller>)
    requires pid in w.callers && CallerOk(w, w.callers[pid]) && ReadStep(w, w.callers[pid], next)
    requires w' == w.(callers := Put(w.callers, pid, next))
    ensures Quiet(w, w', pid)
  {
  }

  lemma ApplyQuiet(w: World, w': World, pid: nat, next: Board)
    requires pid in w.callers && w.callers[pid].ReadBoard?
    requires w' == w.(callers := w.callers[pid := PutHistory(w.callers[pid].request, w.callers[pid].after, w.pages.board, next)])
    ensures Quiet(w, w', pid)
  {
  }

  lemma PutQuiet(w: World, w': World, pid: nat)
    requires pid in w.callers && (PutStep(w, w', pid) || PrepareStep(w, w', pid))
    ensures Quiet(w, w', pid)
  {
  }

  lemma StartQuiet(w: World, w': World, pid: nat)
    requires StartStep(w, w', pid)
    ensures Quiet(w, w', pid)
  {
  }

  lemma StepInspects(w: World, w': World, pid: nat, op: Id)
    requires Safe(w) && StepBy(w, w', pid) && Spent(w, op)
    ensures Inspects(w, w', op) && Attempts(w'.log, op) != []
  {
    if StartStep(w, w', pid) {
      StartQuiet(w, w', pid);
    } else {
      assert CallerOk(w, w.callers[pid]);
      if CommitStep(w, w', pid) {
        CommitKeepsAttempts(w, w', pid, op);
        CommitInspects(w, w', pid, op);
      } else if DuplicateStep(w, w', pid) {
        DuplicateInspects(w, w', pid, op);
      } else if SubmitStep(w, w', pid) {
        SubmitInspects(w, w', pid, op);
      } else if ApplyStep(w, w', pid) {
        var next :| w' == w.(callers := w.callers[pid := PutHistory(w.callers[pid].request, w.callers[pid].after, w.pages.board, next)]);
        ApplyQuiet(w, w', pid, next);
      } else if PutStep(w, w', pid) || PrepareStep(w, w', pid) {
        PutQuiet(w, w', pid);
      } else {
        var next :| ReadStep(w, w.callers[pid], next) && w' == w.(callers := Put(w.callers, pid, next));
        ReadQuiet(w, w', pid, next);
      }
    }
  }

  lemma SpentStays(w: World, w': World, op: Id)
    requires Safe(w) && Spent(w, op) && Step(w, w')
    ensures Safe(w') && Spent(w', op) && SubmissionsOf(w'.submissions, op) == SubmissionsOf(w.submissions, op)
  {
    StepKeeps(w, w');
    var pid :| StepBy(w, w', pid);
    StepInspects(w, w', pid, op);
  }

  /** Once an operation is attempted and its submitter is gone, no later path submits it. */
  lemma {:induction false} OnlyInspectsReceipts(ws: seq<World>, i: nat, j: nat, op: Id)
    requires Execution(ws) && i <= j < |ws| && Spent(ws[i], op)
    ensures SubmissionsOf(ws[j].submissions, op) == SubmissionsOf(ws[i].submissions, op)
    ensures Spent(ws[j], op) && Safe(ws[j])
    decreases j
  {
    if i == j {
      RunSafe(ws, i);
    } else {
      OnlyInspectsReceipts(ws, i, j - 1, op);
      assert StepAt(ws, j - 1);
      SpentStays(ws[j - 1], ws[j], op);
    }
  }
}

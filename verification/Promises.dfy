/** What the coordination engine promises of every Board any run of it commits. */
module Promises {
  import opened Values
  import opened Boards
  import opened Store
  import opened History
  import opened Service
  import opened AtMostOnce
  import opened Executions
  import opened Refinement
  import opened Completion
  import opened Reservations

  /** On every run, under any interleaving, crash and retry, the committed log is a history of policy steps. */
  lemma EveryLogTracked(ws: seq<World>, i: nat)
    requires Execution(ws) && i < |ws|
    ensures Tracked(ws[i].conversation, ws[i].files, ws[i].log)
    ensures ws[i].pages.board == Current(ws[i].conversation, ws[i].log)
  {
    RunSafe(ws, i);
  }

  /** Following the pinned records from the shown Board's history head, and folding their deltas from the empty
      Board, rebuilds that Board. */
  lemma HistoryRebuildsBoard(ws: seq<World>, i: nat)
    requires Execution(ws) && i < |ws|
    ensures ws[i].pages.board.revision == |ws[i].log|
    ensures
      var found := Walk(ws[i].files, ws[i].pages.board.history, ws[i].pages.board.revision);
      found.Some? && Replay(ws[i].conversation, found.value) == ViewOf(ws[i].pages.board)
  {
    RunSafe(ws, i);
    DurableBoard(ws[i]);
    WalkFindsRecords(ws[i].conversation, ws[i].files, ws[i].log);
    ReplayRebuilds(ws[i].conversation, ws[i].files, ws[i].log);
  }

  ghost predicate SomeReceiptHolds(receipts: map<Id, Receipt>, hash: string) {
    exists op :: op in receipts && hash in receipts[op].roots
  }

  lemma SentIsHeld(w: World, j: nat, hash: string)
    requires ReceiptsMatch(w.log, w.pages.receipts) && j < |w.log| && hash in w.log[j].roots
    ensures SomeReceiptHolds(w.pages.receipts, hash)
  {
    assert w.log[j].operationId in w.pages.receipts;
  }

  /** No evidence dangles: on every run, every file that any Board ever committed, or any history record in the
      chain behind it, refers to is among the roots of a receipt Pages holds. */
  lemma EvidenceRetained(ws: seq<World>, i: nat, k: nat, ref: FileRef)
    requires Execution(ws) && i < |ws| && k < |ws[i].log|
    requires BoardRefers(ws[i].log[k].board, ref) || RecordRefers(ws[i].log[k].record, ref)
    ensures SomeReceiptHolds(ws[i].pages.receipts, ref.hash)
  {
    RunSafe(ws, i);
    var j := NothingEverDangles(ws[i].conversation, ws[i].files, ws[i].log, k, ref);
    SentIsHeld(ws[i], j, ref.hash);
  }

  // The same, field by field.

  ghost predicate TaskFilesHeld(receipts: map<Id, Receipt>, task: Task) {
    && (forall j :: 0 <= j < |task.evidence| ==> SomeReceiptHolds(receipts, task.evidence[j].hash))
    && (task.acceptance.Some? ==>
          forall j :: 0 <= j < |task.acceptance.value.evidence| ==> SomeReceiptHolds(receipts, task.acceptance.value.evidence[j].hash))
  }

  ghost predicate RunFilesHeld(receipts: map<Id, Receipt>, run: Run) {
    && (run.report.Some? ==> SomeReceiptHolds(receipts, run.report.value.hash))
    && (run.progress.Some? && run.progress.value.source.Some? ==> SomeReceiptHolds(receipts, run.progress.value.source.value.hash))
    && (run.progress.Some? ==>
          forall j :: 0 <= j < |run.progress.value.artifacts| ==> SomeReceiptHolds(receipts, run.progress.value.artifacts[j].hash))
  }

  ghost predicate FilesHeld(receipts: map<Id, Receipt>, tasks: map<Id, Task>, runs: map<Id, Run>, asks: map<Id, Ask>, head: Option<FileRef>) {
    && (forall t :: t in tasks ==> TaskFilesHeld(receipts, tasks[t]))
    && (forall r :: r in runs ==> RunFilesHeld(receipts, runs[r]))
    && (forall a, j :: a in asks && 0 <= j < |asks[a].artifacts| ==> SomeReceiptHolds(receipts, asks[a].artifacts[j].hash))
    && (head.Some? ==> SomeReceiptHolds(receipts, head.value.hash))
  }

  lemma ReferredFilesHeld(receipts: map<Id, Receipt>, tasks: map<Id, Task>, runs: map<Id, Run>, asks: map<Id, Ask>, head: Option<FileRef>)
    requires forall ref :: Refers(tasks, runs, asks, head, ref) ==> SomeReceiptHolds(receipts, ref.hash)
    ensures FilesHeld(receipts, tasks, runs, asks, head)
  {
    forall t | t in tasks
      ensures TaskFilesHeld(receipts, tasks[t])
    {
      assert forall ref :: TaskRefers(tasks[t], ref) ==> Refers(tasks, runs, asks, head, ref);
    }
    forall r | r in runs
      ensures RunFilesHeld(receipts, runs[r])
    {
      assert forall ref :: RunRefers(runs[r], ref) ==> Refers(tasks, runs, asks, head, ref);
    }
    forall a, j | a in asks && 0 <= j < |asks[a].artifacts|
      ensures SomeReceiptHolds(receipts, asks[a].artifacts[j].hash)
    {
      assert Refers(tasks, runs, asks, head, asks[a].artifacts[j]);
    }
    if head.Some? {
      assert Refers(tasks, runs, asks, head, head.value);
    }
  }

  /** On every run, a receipt holds every report, checkpoint artifact and source, piece of evidence, ask artifact and
      history record that any committed Board names, and every one that any history record introduces. */
  lemma EveryFileHeld(ws: seq<World>, i: nat, k: nat)
    requires Execution(ws) && i < |ws| && k < |ws[i].log|
    ensures
      var b := ws[i].log[k].board;
      FilesHeld(ws[i].pages.receipts, b.tasks, b.runs, b.asks, b.history)
    ensures
      var record := ws[i].log[k].record;
      FilesHeld(ws[i].pages.receipts, record.delta.tasks.upsert, record.delta.runs.upsert, record.delta.asks.upsert, record.previous)
  {
    var receipts, b, record := ws[i].pages.receipts, ws[i].log[k].board, ws[i].log[k].record;
    forall ref | BoardRefers(b, ref) || RecordRefers(record, ref)
      ensures SomeReceiptHolds(receipts, ref.hash)
    {
      EvidenceRetained(ws, i, k, ref);
    }
    ReferredFilesHeld(receipts, b.tasks, b.runs, b.asks, b.history);
    ReferredFilesHeld(receipts, record.delta.tasks.upsert, record.delta.runs.upsert, record.delta.asks.upsert, record.previous);
  }

  /** And so is every file the Board shown now refers to. */
  lemma BoardEvidenceRetained(ws: seq<World>, i: nat, ref: FileRef)
    requires Execution(ws) && i < |ws| && BoardRefers(ws[i].pages.board, ref)
    ensures SomeReceiptHolds(ws[i].pages.receipts, ref.hash)
  {
    RunSafe(ws, i);
    EvidenceNeverDangles(ws[i].conversation, ws[i].files, ws[i].log, ref);
    var j := RootsSent(ws[i].log, ref.hash);
    SentIsHeld(ws[i], j, ref.hash);
  }

  /** Every accepted task on the Board was accepted, at its recorded revision, on a completed and reported run of its own. */
  lemma BoardAcceptancesEarned(ws: seq<World>, i: nat, t: Id)
    requires Execution(ws) && i < |ws|
    requires t in ws[i].pages.board.tasks && ws[i].pages.board.tasks[t].acceptance.Some?
    ensures AcceptedAt(ws[i].conversation, ws[i].log, t, ws[i].pages.board.tasks[t].acceptance.value)
  {
    EveryLogTracked(ws, i);
    AcceptanceIsEarned(ws[i].conversation, ws[i].files, ws[i].log, t);
  }

  /** From any point of any run, every reservation that was never attempted, whether a command's or a wake's, can
      still be finished: its exact retry, left alone, runs to the one submission of its effect. */
  lemma ReservationsCanFinish(ws: seq<World>, i: nat, op: Id, pid: nat, effect: Effect, ref: FileRef)
    requires Execution(ws) && i < |ws| && pid !in ws[i].callers && ValidRef(ref) && ref !in ws[i].files
    requires Unclaimed(ws[i].pages.board, op) && ws[i].pages.board.revision < MAX_SAFE
    requires Completion.Sendable(ws[i].pages.board.outbox[op], op, effect)
    ensures exists w :: CanReach(ws[i], w) && w.submissions == ws[i].submissions + [Submission(op, Uuid(ws[i].nextUuid), effect)]
  {
    var request, after := EveryReservationHasItsRetry(ws, i, op);
    RunSafe(ws, i);
    EveryBoardValid(ws, i);
    ClaimCommits(ws[i].pages.board, op, ws[i].nextUuid, effect);
    ExactRetrySubmits(ws[i], pid, request, after, op, effect, ref);
  }
}

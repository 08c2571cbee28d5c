/** The durable store as a log of committed changes: one receipt per revision, a pinned
    history record per change, and the file roots each commit retains. */
module Store {
  import opened Values
  import opened Boards
  import opened Policy
  import opened Invariant

  // -- History records ------------------------------------------------------------

  datatype Diff<!K, V> = Diff(upsert: map<K, V>, delete: set<K>)

  function DiffOf<K, V(==)>(before: map<K, V>, after: map<K, V>): Diff<K, V> {
    Diff(map k | k in after && (k !in before || before[k] != after[k]) :: after[k], before.Keys - after.Keys)
  }

  function Patch<K, V>(m: map<K, V>, d: Diff<K, V>): map<K, V> {
    m - d.delete + d.upsert
  }

  lemma PatchUndoesDiff<K, V>(before: map<K, V>, after: map<K, V>)
    ensures Patch(before, DiffOf(before, after)) == after
  {
  }

  /** What a Board says, apart from its revision and its place in the history chain. */
  datatype View = View(
    tasks: map<Id, Task>, runs: map<Id, Run>, asks: map<Id, Ask>, rules: map<Id, Rule>, outbox: map<Id, Entry>,
    checkpoint: Checkpoint, concurrencyLimit: Option<int>, checkinMinutes: Option<int>)

  function ViewOf(b: Board): View {
    View(b.tasks, b.runs, b.asks, b.rules, b.outbox, b.checkpoint, b.concurrencyLimit, b.checkinMinutes)
  }

  datatype Delta = Delta(
    tasks: Diff<Id, Task>, runs: Diff<Id, Run>, asks: Diff<Id, Ask>, rules: Diff<Id, Rule>, outbox: Diff<Id, Entry>,
    checkpoint: Checkpoint, concurrencyLimit: Option<int>, checkinMinutes: Option<int>)

  function HistoryDelta(before: Board, after: Board): Delta {
    Delta(DiffOf(before.tasks, after.tasks), DiffOf(before.runs, after.runs), DiffOf(before.asks, after.asks),
          DiffOf(before.rules, after.rules), DiffOf(before.outbox, after.outbox),
          after.checkpoint, after.concurrencyLimit, after.checkinMinutes)
  }

  function ApplyDelta(v: View, d: Delta): View {
    View(Patch(v.tasks, d.tasks), Patch(v.runs, d.runs), Patch(v.asks, d.asks), Patch(v.rules, d.rules),
         Patch(v.outbox, d.outbox), d.checkpoint, d.concurrencyLimit, d.checkinMinutes)
  }

  lemma DeltaRebuilds(before: Board, after: Board)
    ensures ApplyDelta(ViewOf(before), HistoryDelta(before, after)) == ViewOf(after)
  {
    PatchUndoesDiff(before.tasks, after.tasks);
    PatchUndoesDiff(before.runs, after.runs);
    PatchUndoesDiff(before.asks, after.asks);
    PatchUndoesDiff(before.rules, after.rules);
    PatchUndoesDiff(before.outbox, after.outbox);
  }

  // -- Intents: what a caller asked for, compared on retry ---------------------------

  datatype Command =
    | ChangeCommand(operationId: Id, expectedRevision: int, action: Action)
    | DispatchCommand(operationId: Id, expectedRevision: int, taskId: Id, anew: bool)
    | ControlCommand(operationId: Id, expectedRevision: int, runId: Id, steer: bool, text: string)

  datatype Input =
    | ProgressInput(operationId: Id, runId: Id, jobId: Id, progress: Progress, raw: string)
    | ReportInput(operationId: Id, runId: Id, jobId: Id, report: string)
    | ResultInput(operationId: Id, runId: Id, jobId: Id, settlement: Settlement, report: string)
    | DecisionInput(operationId: Id, askId: Id, source: MemberSource, text: string)
    | UnavailableInput(operationId: Id, runId: Id, jobId: Id)

  datatype Intent =
    | CommandIntent(command: Command)
    | InputIntent(input: Input)
    | AttemptIntent(operationId: Id, attemptId: Id, effect: Effect)
    | ReceiptIntent(receipt: EffectReceipt)

  datatype Record = Record(operationId: Id, intent: Intent, revision: int, previous: Option<FileRef>, delta: Delta)

  type Files = map<FileRef, Record>

  // -- File references ----------------------------------------------------------------

  predicate TaskRefers(task: Task, ref: FileRef) {
    ref in task.evidence || (task.acceptance.Some? && ref in task.acceptance.value.evidence)
  }

  predicate RunRefers(run: Run, ref: FileRef) {
    || run.report == Some(ref)
    || (run.progress.Some? && (ref in run.progress.value.artifacts || run.progress.value.source == Some(ref)))
  }

  ghost predicate Refers(tasks: map<Id, Task>, runs: map<Id, Run>, asks: map<Id, Ask>, head: Option<FileRef>, ref: FileRef) {
    || (exists t :: t in tasks && TaskRefers(tasks[t], ref))
    || (exists r :: r in runs && RunRefers(runs[r], ref))
    || (exists a :: a in asks && ref in asks[a].artifacts)
    || head == Some(ref)
  }

  ghost predicate BoardRefers(b: Board, ref: FileRef) {
    Refers(b.tasks, b.runs, b.asks, b.history, ref)
  }

  ghost predicate RecordRefers(record: Record, ref: FileRef) {
    Refers(record.delta.tasks.upsert, record.delta.runs.upsert, record.delta.asks.upsert, record.previous, ref)
  }

  ghost predicate Retained(b: Board, hash: string) {
    exists ref :: BoardRefers(b, ref) && ref.hash == hash
  }

  /** The roots a commit sends: the history head, and the references the record introduces. */
  ghost predicate RootsFor(before: Board, record: Record, head: FileRef, roots: set<string>) {
    && |roots| <= 8
    && head.hash in roots
    && (forall ref :: RecordRefers(record, ref) && !Retained(before, ref.hash) ==> ref.hash in roots)
  }

  // -- The log --------------------------------------------------------------------------

  datatype LogEntry = LogEntry(
    operationId: Id, intent: Intent, change: Change, board: Board, record: Record, roots: set<string>)

  type Log = seq<LogEntry>

  function Init(log: Log): Log
    requires log != []
  {
    log[..|log| - 1]
  }

  function Last(log: Log): LogEntry
    requires log != []
  {
    log[|log| - 1]
  }

  function Current(conversation: Id, log: Log): Board {
    if log == [] then EmptyBoard(conversation) else Last(log).board
  }

  function Operations(log: Log): set<Id> {
    if log == [] then {} else Operations(Init(log)) + {Last(log).operationId}
  }

  /** An operation and the change it commits name each other: a caller's own id for its
      reservations, and an id derived from the operation, attempt or effect otherwise. */
  predicate WellKeyed(op: Id, c: Change) {
    match c
    case Decided(_) => op.Named?
    case Dispatch(x, _, _, _) => op == x && op.Named?
    case Control(x, _, _, _) => op == x && op.Named?
    case Attempt(_, attemptId, _) => op == Child(AttemptPhase, attemptId)
    case Acknowledged(receipt) => op == Child(ReceiptPhase, receipt.operationId)
    case Provider(_, wake) => op.Named? && (wake.Some? ==> wake.value.operationId == Child(WakePhase, op))
  }

  /** One commit on top of `before`: a Board the change evolves into, its pinned record and
      the roots it retains. */
  ghost predicate Tracks(files: Files, before: Board, revision: int, e: LogEntry) {
    && WellKeyed(e.operationId, e.change)
    && Evolves(before, e.board, e.change) && before.revision + 1 == e.board.revision == revision
    && e.record == Record(e.operationId, e.intent, revision, before.history, HistoryDelta(before, e.board))
    && e.board.history.Some? && e.board.history.value in files && files[e.board.history.value] == e.record
    && RootsFor(before, e.record, e.board.history.value, e.roots)
  }

  /** Every entry follows from the Board the entries before it left, under an unused id. */
  ghost predicate Tracked(conversation: Id, files: Files, log: Log) {
    log == [] ||
    (&& Tracked(conversation, files, Init(log))
     && Last(log).operationId !in Operations(Init(log))
     && Tracks(files, Current(conversation, Init(log)), |log|, Last(log)))
  }

  lemma {:induction false} TrackedPrefix(conversation: Id, files: Files, log: Log, k: nat)
    requires Tracked(conversation, files, log) && k <= |log|
    ensures Tracked(conversation, files, log[..k])
    decreases |log|
  {
    if k < |log| {
      assert Init(log)[..k] == log[..k];
      TrackedPrefix(conversation, files, Init(log), k);
    } else {
      assert log[..k] == log;
    }
  }

  lemma {:induction false} TrackedGrows(conversation: Id, files: Files, files': Files, log: Log)
    requires Tracked(conversation, files, log)
    requires forall ref :: ref in files ==> ref in files' && files'[ref] == files[ref]
    ensures Tracked(conversation, files', log)
    decreases |log|
  {
    if log != [] {
      TrackedGrows(conversation, files, files', Init(log));
    }
  }

  lemma TrackedInv(conversation: Id, files: Files, log: Log)
    requires Tracked(conversation, files, log)
    ensures Inv(Current(conversation, log)) && Current(conversation, log).revision == |log|
  {
  }

  lemma {:induction false} OperationsAre(log: Log, op: Id)
    ensures op in Operations(log) <==> exists k :: 0 <= k < |log| && log[k].operationId == op
    decreases |log|
  {
    if log != [] {
      OperationsAre(Init(log), op);
      if k :| 0 <= k < |Init(log)| && Init(log)[k].operationId == op {
        assert log[k].operationId == op;
      }
    }
  }

  /** Revisions and operations pair off: no operation commits twice. */
  lemma {:induction false} OperationsDistinct(conversation: Id, files: Files, log: Log, i: nat, j: nat)
    requires Tracked(conversation, files, log) && i < j < |log|
    ensures log[i].operationId != log[j].operationId
    decreases |log|
  {
    if j == |log| - 1 {
      OperationsAre(Init(log), log[i].operationId);
      assert Init(log)[i].operationId == log[i].operationId;
    } else {
      OperationsDistinct(conversation, files, Init(log), i, j);
    }
  }

  // -- Replay -----------------------------------------------------------------------------

  /** The records behind a history head, oldest first. */
  function Walk(files: Files, head: Option<FileRef>, n: nat): Option<seq<Record>>
    decreases n
  {
    if n == 0 then (if head.None? then Some([]) else None)
    else if head.None? || head.value !in files then None
    else
      var record := files[head.value];
      match Walk(files, record.previous, n - 1)
      case None => None
      case Some(older) => Some(older + [record])
  }

  function Replay(conversation: Id, records: seq<Record>): View {
    if records == [] then ViewOf(EmptyBoard(conversation))
    else ApplyDelta(Replay(conversation, records[..|records| - 1]), records[|records| - 1].delta)
  }

  function Records(log: Log): seq<Record> {
    if log == [] then [] else Records(Init(log)) + [Last(log).record]
  }

  /** Following the pinned chain from the current Board yields one record per revision. */
  lemma {:induction false} WalkFindsRecords(conversation: Id, files: Files, log: Log)
    requires Tracked(conversation, files, log)
    ensures Walk(files, Current(conversation, log).history, |log|) == Some(Records(log))
    decreases |log|
  {
    if log != [] {
      WalkFindsRecords(conversation, files, Init(log));
    }
  }

  lemma {:induction false} RecordsInOrder(conversation: Id, files: Files, log: Log, k: nat)
    requires Tracked(conversation, files, log) && k < |log|
    ensures |Records(log)| == |log| && Records(log)[k] == log[k].record
    ensures log[k].record.revision == k + 1 && log[k].record.operationId == log[k].operationId
    decreases |log|
  {
    if k < |log| - 1 {
      RecordsInOrder(conversation, files, Init(log), k);
    } else if k > 0 {
      RecordsInOrder(conversation, files, Init(log), k - 1);
    }
  }

  /** Folding the deltas along that chain from the empty Board rebuilds the current one. */
  lemma {:induction false} ReplayRebuilds(conversation: Id, files: Files, log: Log)
    requires Tracked(conversation, files, log)
    ensures Replay(conversation, Records(log)) == ViewOf(Current(conversation, log))
    decreases |log|
  {
    if log != [] {
      ReplayRebuilds(conversation, files, Init(log));
      assert Records(log)[..|Records(log)| - 1] == Records(Init(log));
      DeltaRebuilds(Current(conversation, Init(log)), Last(log).board);
    }
  }

  // -- Retained evidence -------------------------------------------------------------------

  function Roots(log: Log): set<string> {
    if log == [] then {} else Roots(Init(log)) + Last(log).roots
  }

  lemma NewReference(before: Board, e: LogEntry, ref: FileRef)
    requires e.record.delta == HistoryDelta(before, e.board)
    requires BoardRefers(e.board, ref) && e.board.history != Some(ref)
    ensures BoardRefers(before, ref) || RecordRefers(e.record, ref)
  {
    if t :| t in e.board.tasks && TaskRefers(e.board.tasks[t], ref) {
      assert (t in before.tasks && before.tasks[t] == e.board.tasks[t]) || t in e.record.delta.tasks.upsert;
    } else if r :| r in e.board.runs && RunRefers(e.board.runs[r], ref) {
      assert (r in before.runs && before.runs[r] == e.board.runs[r]) || r in e.record.delta.runs.upsert;
    } else {
      var a :| a in e.board.asks && ref in e.board.asks[a].artifacts;
      assert (a in before.asks && before.asks[a] == e.board.asks[a]) || a in e.record.delta.asks.upsert;
    }
  }

  /** Every file a committed Board or its history record refers to is a root of some commit up
      to then, although each commit sends only the roots it introduces. */
  lemma {:induction false} EvidenceNeverDangles(conversation: Id, files: Files, log: Log, ref: FileRef)
    requires Tracked(conversation, files, log)
    requires BoardRefers(Current(conversation, log), ref) || (log != [] && RecordRefers(Last(log).record, ref))
    ensures ref.hash in Roots(log)
    decreases |log|
  {
    if log != [] {
      var before, e := Current(conversation, Init(log)), Last(log);
      if ref.hash !in e.roots {
        if BoardRefers(e.board, ref) {
          NewReference(before, e, ref);
        }
        var held :| BoardRefers(before, held) && held.hash == ref.hash;
        EvidenceNeverDangles(conversation, files, Init(log), held);
      }
    }
  }

  lemma {:induction false} RootsSent(log: Log, hash: string) returns (k: nat)
    requires hash in Roots(log)
    ensures k < |log| && hash in log[k].roots
    decreases |log|
  {
    if hash in Last(log).roots {
      k := |log| - 1;
    } else {
      k := RootsSent(Init(log), hash);
    }
  }

  /** The same for every earlier Board and every ancestor record: some commit sent the root. */
  lemma NothingEverDangles(conversation: Id, files: Files, log: Log, k: nat, ref: FileRef) returns (j: nat)
    requires Tracked(conversation, files, log) && k < |log|
    requires BoardRefers(log[k].board, ref) || RecordRefers(log[k].record, ref)
    ensures j <= k && ref.hash in log[j].roots
  {
    var prefix := log[..k + 1];
    TrackedPrefix(conversation, files, log, k + 1);
    EvidenceNeverDangles(conversation, files, prefix, ref);
    j := RootsSent(prefix, ref.hash);
  }
}

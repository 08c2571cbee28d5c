/** The effect protocol: racing callers reserve, claim an attempt by compare-and-swap, submit
    and acknowledge, against a store whose replies can be lost and callers that can die at any
    point. */
module Service {
  import opened Values
  import opened Boards
  import opened Policy
  import opened Invariant
  import opened Store
  import opened History

  datatype Receipt = Receipt(intent: Intent, revision: int, history: FileRef, roots: set<string>)

  /** What Pages holds durably: the current Board, and one receipt per committed request. */
  datatype Pages = Pages(board: Board, receipts: map<Id, Receipt>)

  /** The arguments of one store change. */
  datatype Request = Request(operationId: Id, expectedRevision: int, intent: Intent, change: Change)

  /** What a caller does once its change is answered. */
  datatype After =
    | Finish
    | SubmitEntry(operationId: Id)
    | FinishInput(operationId: Id)
    | SubmitAttempt(operationId: Id, attemptId: Id, effect: Effect)

  /** Where a caller is: each constructor names the next request it will send. */
  datatype Caller =
    | AskReceipt(request: Request, after: After)
    | ReadBoard(request: Request, after: After, prior: Option<Receipt>)
    | PutHistory(request: Request, after: After, base: Board, next: Board)
    | CommitPages(request: Request, after: After, base: Board, value: Board, ref: FileRef, record: Record, roots: set<string>)
    | PrepareEffect(board: Board, operationId: Id)
    | SubmitEffect(operationId: Id, attemptId: Id, effect: Effect)
    | CommitReceipt(receipt: EffectReceipt)
    | ReconcileAsk(operationId: Id)
    | ReconcileRead(operationId: Id)
    | ReconcileLookup(operationId: Id)

  datatype Submission = Submission(operationId: Id, attemptId: Id, effect: Effect)

  /** The whole system. `submissions` are the external effects that reached the network, `answers` what the network may
      reply when asked about an operation, and `log` is the history of commits behind `pages`. */
  datatype World = World(
    conversation: Id, pages: Pages, files: Files, log: Log,
    callers: map<nat, Caller>, submissions: seq<Submission>, nextUuid: nat, answers: (Id, EffectReceipt) -> bool)

  // -- What callers start with ------------------------------------------------------

  /** The checkpoint kept for a worker's claims: its raw source is stored, and claims that cannot all be projected are
      quarantined. */
  predicate Materializes(claimed: Progress, kept: Progress) {
    && kept.sequence == claimed.sequence && kept.summary == claimed.summary && kept.source.Some?
    && (|| (|kept.artifacts| == |claimed.artifacts| && kept.next == claimed.next && kept.blocker == claimed.blocker)
        || (&& kept.artifacts == [] && kept.blocker == Some("unprocessable_worker_artifacts")
            && kept.next == "Review the preserved raw checkpoint before relying on its artifact claims."))
  }

  predicate EventFor(input: Input, event: Event) {
    match input
    case ProgressInput(_, runId, jobId, progress, _) =>
      event.Progressed? && event.runId == runId && event.jobId == jobId && Materializes(progress, event.progress)
    case ReportInput(_, runId, jobId, _) => event.Reported? && event.runId == runId && event.jobId == jobId
    case ResultInput(_, runId, jobId, settlement, _) =>
      event.Settled? && event.runId == runId && event.jobId == jobId && event.settlement == settlement
    case DecisionInput(op, askId, source, text) => event == Decision(askId, Reply(source, text, op))
    case UnavailableInput(_, runId, jobId) => event == Unavailable(runId, jobId)
  }

  /** The wake an input delivered outside the inbox adds: what happened, and to which run or ask. */
  predicate WakeFor(input: Input, wake: Wake) {
    match input
    case ProgressInput(op, runId, _, _, _) => wake == Wake(Child(WakePhase, op), BlockerEvent, runId)
    case ReportInput(op, runId, _, _) => wake == Wake(Child(WakePhase, op), ResultEvent, runId)
    case ResultInput(op, runId, _, _, _) => wake == Wake(Child(WakePhase, op), ResultEvent, runId)
    case DecisionInput(op, askId, _, _) => wake == Wake(Child(WakePhase, op), DecisionEvent, askId)
    case UnavailableInput(_, _, _) => false
  }

  /** The requests commands and authenticated inputs become. Their ids are the caller's own;
      the Board revision an input expects is whatever its handler last read. */
  predicate Issues(request: Request, after: After) {
    && request.operationId.Named?
    && match request.intent
       case CommandIntent(ChangeCommand(op, expected, action)) =>
         request == Request(op, expected, request.intent, Decided(action)) && after == Finish
       case CommandIntent(DispatchCommand(op, expected, taskId, anew)) =>
         && request.change.Dispatch?
         && request == Request(op, expected, request.intent, Dispatch(op, taskId, anew, request.change.prompt))
         && after == SubmitEntry(op)
       case CommandIntent(ControlCommand(op, expected, runId, steer, text)) =>
         request == Request(op, expected, request.intent, Control(op, runId, steer, text)) && after == SubmitEntry(op)
       case InputIntent(input) =>
         && request.operationId == input.operationId
         && request.change.Provider? && EventFor(input, request.change.event)
         && (request.change.wake.Some? ==> WakeFor(input, request.change.wake.value))
         && after == if input.UnavailableInput? then Finish else FinishInput(Child(WakePhase, input.operationId))
       case _ => false
  }

  // -- Steps ----------------------------------------------------------------------------

  /** An entry that never claimed an attempt may be submitted; anything else only looks up receipts. */
  function SubmitReserved(board: Board, op: Id): Caller {
    if op !in board.outbox || board.outbox[op].status.Attempted? then ReconcileAsk(op) else PrepareEffect(board, op)
  }

  function Proceed(after: After, board: Board, replayed: bool): Option<Caller> {
    match after
    case Finish => None
    case SubmitEntry(op) => Some(SubmitReserved(board, op))
    case FinishInput(op) => if op in board.outbox then Some(SubmitReserved(board, op)) else None
    case SubmitAttempt(op, attemptId, effect) =>
      Some(if replayed then ReconcileAsk(op) else SubmitEffect(op, attemptId, effect))
  }

  function Put(callers: map<nat, Caller>, pid: nat, next: Option<Caller>): map<nat, Caller> {
    if next.Some? then callers[pid := next.value] else callers - {pid}
  }

  /** A step that reads durable state and moves one caller. A caller that dies, is refused, or
      whose reply is lost, is gone. */
  predicate ReadStep(w: World, c: Caller, next: Option<Caller>) {
    next.None? ||
    match c
    case AskReceipt(request, after) =>
      var op := request.operationId;
      next == Some(ReadBoard(request, after, if op in w.pages.receipts then Some(w.pages.receipts[op]) else None))
    case ReadBoard(request, after, prior) =>
      prior.Some? && prior.value.intent == request.intent && next == Proceed(after, w.pages.board, true)
    case CommitReceipt(receipt) =>
      next == Some(AskReceipt(Request(Child(ReceiptPhase, receipt.operationId), w.pages.board.revision,
                                      ReceiptIntent(receipt), Acknowledged(receipt)), Finish))
    case ReconcileAsk(op) => Child(ReceiptPhase, op) !in w.pages.receipts && next == Some(ReconcileRead(op))
    case ReconcileRead(op) => op in w.pages.board.outbox && next == Some(ReconcileLookup(op))
    case ReconcileLookup(op) =>
      next.value.CommitReceipt? && w.answers(op, next.value.receipt) && next.value.receipt.operationId == op
    case _ => false
  }

  /** A request without a receipt is applied to the Board just read, if that is the one expected. */
  ghost predicate ApplyStep(w: World, w': World, pid: nat)
    requires pid in w.callers
  {
    var c := w.callers[pid];
    && c.ReadBoard? && c.prior.None? && w.pages.board.revision == c.request.expectedRevision
    && exists next ::
         && Commits(w.pages.board, c.request.change, next)
         && w' == w.(callers := w.callers[pid := PutHistory(c.request, c.after, w.pages.board, next)])
  }

  function RecordOf(request: Request, base: Board, next: Board): Record {
    Record(request.operationId, request.intent, next.revision, base.history, HistoryDelta(base, next))
  }

  /** Writing the history record yields a reference with that immutable content. */
  ghost predicate PutStep(w: World, w': World, pid: nat)
    requires pid in w.callers
  {
    var c := w.callers[pid];
    && c.PutHistory?
    && exists ref, roots ::
         var record := RecordOf(c.request, c.base, c.next);
         && ValidRef(ref) && (ref in w.files ==> w.files[ref] == record)
         && RootsFor(c.base, record, ref, roots)
         && w' == w.(files := w.files[ref := record],
                     callers := w.callers[pid := CommitPages(c.request, c.after, c.base,
                                                             c.next.(history := Some(ref)), ref, record, roots)])
  }

  /** The compare-and-swap took effect; its reply may be lost. */
  ghost predicate CommitStep(w: World, w': World, pid: nat)
    requires pid in w.callers
  {
    var c := w.callers[pid];
    && c.CommitPages? && c.request.operationId !in w.pages.receipts
    && w.pages.board.revision == c.base.revision
    && exists next ::
         && (next == None || next == Proceed(c.after, c.value, false))
         && w' == w.(pages := Pages(c.value, w.pages.receipts[c.request.operationId :=
                                      Receipt(c.request.intent, c.value.revision, c.ref, c.roots)]),
                     log := w.log + [LogEntry(c.request.operationId, c.request.intent, c.request.change, c.value,
                                              c.record, c.roots)],
                     callers := Put(w.callers, pid, next))
  }

  /** A duplicate of a committed request with exactly the committed data is answered as committed. */
  ghost predicate DuplicateStep(w: World, w': World, pid: nat)
    requires pid in w.callers
  {
    var c := w.callers[pid];
    && c.CommitPages?
    && (exists k :: 0 <= k < |w.log| && w.log[k].operationId == c.request.operationId && w.log[k].board == c.value)
    && w' == w.(callers := Put(w.callers, pid, Proceed(c.after, c.value, false)))
  }

  /** Preparation freezes the payload under a fresh attempt id, and the attempt is committed first. */
  ghost predicate PrepareStep(w: World, w': World, pid: nat)
    requires pid in w.callers
  {
    var c := w.callers[pid];
    && c.PrepareEffect?
    && c.operationId in c.board.outbox
    && exists effect: Effect ::
         var attemptId := Uuid(w.nextUuid);
         && effect.request == c.operationId && effect.payload == c.board.outbox[c.operationId].payload
         && w' == w.(nextUuid := w.nextUuid + 1,
                     callers := w.callers[pid :=
                       AskReceipt(Request(Child(AttemptPhase, attemptId), c.board.revision,
                                          AttemptIntent(c.operationId, attemptId, effect),
                                          Attempt(c.operationId, attemptId, effect)),
                                  SubmitAttempt(c.operationId, attemptId, effect))])
  }

  /** The effect reaches the network; its receipt may be lost. */
  ghost predicate SubmitStep(w: World, w': World, pid: nat)
    requires pid in w.callers
  {
    var c := w.callers[pid];
    && c.SubmitEffect?
    && exists next: Option<Caller> ::
         && (next.Some? ==>
               && next.value.CommitReceipt? && w.answers(c.operationId, next.value.receipt)
               && next.value.receipt.operationId == c.operationId)
         && w' == w.(submissions := w.submissions + [Submission(c.operationId, c.attemptId, c.effect)],
                     callers := Put(w.callers, pid, next))
  }

  ghost predicate StartStep(w: World, w': World, pid: nat) {
    && pid !in w.callers
    && exists c: Caller ::
         && (c.ReconcileAsk? || (c.AskReceipt? && Issues(c.request, c.after)))
         && w' == w.(callers := w.callers[pid := c])
  }

  ghost predicate StepBy(w: World, w': World, pid: nat) {
    || StartStep(w, w', pid)
    || (&& pid in w.callers
        && (|| (exists next :: ReadStep(w, w.callers[pid], next) && w' == w.(callers := Put(w.callers, pid, next)))
            || ApplyStep(w, w', pid) || PutStep(w, w', pid) || CommitStep(w, w', pid) || DuplicateStep(w, w', pid)
            || PrepareStep(w, w', pid) || SubmitStep(w, w', pid)))
  }

  ghost predicate Step(w: World, w': World) {
    exists pid :: StepBy(w, w', pid)
  }

  predicate Initial(w: World) {
    && ValidId(w.conversation)
    && w.pages == Pages(EmptyBoard(w.conversation), map[]) && w.files == map[] && w.log == []
    && w.callers == map[] && w.submissions == []
  }

  ghost predicate StepAt(ws: seq<World>, i: nat)
    requires i + 1 < |ws|
  {
    Step(ws[i], ws[i + 1])
  }

  /** Any run of the system, from an empty store. */
  ghost predicate Execution(ws: seq<World>) {
    && ws != [] && Initial(ws[0])
    && forall i: nat :: i + 1 < |ws| ==> StepAt(ws, i)
  }
}

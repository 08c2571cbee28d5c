/** Every reservation on a Board still has the request that made it, so its exact retry exists. */
module Reservations {
  import opened Values
  import opened Boards
  import opened Policy
  import opened Invariant
  import opened Store
  import opened History
  import opened Service
  import opened AtMostOnce
  import opened Executions
  import opened Refinement
  import opened Completion

  /** A committed change is the claim or receipt of an effect, or what some command or input asked for. */
  ghost predicate Asked(op: Id, intent: Intent, c: Change) {
    || (c.Attempt? && intent == AttemptIntent(c.operationId, c.attemptId, c.effect))
    || (c.Acknowledged? && intent == ReceiptIntent(c.receipt))
    || exists expected, after :: Issues(Request(op, expected, intent, c), after)
  }

  function RequestOf(c: Caller): Option<Request> {
    match c
    case AskReceipt(request, _) => Some(request)
    case ReadBoard(request, _, _) => Some(request)
    case PutHistory(request, _, _, _) => Some(request)
    case CommitPages(request, _, _, _, _, _, _) => Some(request)
    case _ => None
  }

  ghost predicate CallerAsked(c: Caller) {
    RequestOf(c).Some? ==> Asked(RequestOf(c).value.operationId, RequestOf(c).value.intent, RequestOf(c).value.change)
  }

  ghost predicate AllAsked(w: World) {
    && (forall pid :: pid in w.callers ==> CallerAsked(w.callers[pid]))
    && (forall k :: 0 <= k < |w.log| ==> Asked(w.log[k].operationId, w.log[k].intent, w.log[k].change))
  }

  /** One caller moves, keeping its request or taking one that was asked, and at most its own request is logged. */
  ghost predicate Hands(w: World, w': World, pid: nat) {
    && (forall p :: p in w'.callers && p != pid ==> p in w.callers && w.callers[p] == w'.callers[p])
    && (pid in w'.callers ==> CallerAsked(w'.callers[pid]) || (pid in w.callers && RequestOf(w.callers[pid]) == RequestOf(w'.callers[pid])))
    && (w'.log == w.log || (pid in w.callers && w.callers[pid].CommitPages? && w'.log == w.log + [EntryOf(w.callers[pid])]))
  }

  lemma HandsAsked(w: World, w': World, pid: nat)
    requires AllAsked(w) && Hands(w, w', pid)
    ensures AllAsked(w')
  {
    if pid in w.callers {
      assert CallerAsked(w.callers[pid]);
    }
    forall p | p in w'.callers
      ensures CallerAsked(w'.callers[p])
    {
      if p != pid {
        assert CallerAsked(w.callers[p]);
      }
    }
  }

  lemma StartHands(w: World, w': World, pid: nat)
    requires StartStep(w, w', pid)
    ensures Hands(w, w', pid)
  {
    var c: Caller :| (c.ReconcileAsk? || (c.AskReceipt? && Issues(c.request, c.after))) && w' == w.(callers := w.callers[pid := c]);
    if c.AskReceipt? {
      assert c.request == Request(c.request.operationId, c.request.expectedRevision, c.request.intent, c.request.change);
      assert Asked(c.request.operationId, c.request.intent, c.request.change);
    }
  }

  lemma ReadHands(w: World, w': World, pid: nat, next: Option<Caller>)
    requires pid in w.callers && ReadStep(w, w.callers[pid], next) && w' == w.(callers := Put(w.callers, pid, next))
    ensures Hands(w, w', pid)
  {
  }

  lemma ApplyHands(w: World, w': World, pid: nat, next: Board)
    requires pid in w.callers && w.callers[pid].ReadBoard?
    requires w' == w.(callers := w.callers[pid := PutHistory(w.callers[pid].request, w.callers[pid].after, w.pages.board, next)])
    ensures Hands(w, w', pid)
  {
  }

  lemma PutHands(w: World, w': World, pid: nat)
    requires pid in w.callers && PutStep(w, w', pid)
    ensures Hands(w, w', pid)
  {
  }

  lemma CommitHands(w: World, w': World, pid: nat)
    requires pid in w.callers && CommitStep(w, w', pid)
    ensures Hands(w, w', pid)
  {
  }

  lemma OtherHands(w: World, w': World, pid: nat)
    requires pid in w.callers && (DuplicateStep(w, w', pid) || PrepareStep(w, w', pid) || SubmitStep(w, w', pid))
    ensures Hands(w, w', pid)
  {
  }

  lemma StepAsked(w: World, w': World, pid: nat)
    requires AllAsked(w) && StepBy(w, w', pid)
    ensures AllAsked(w')
  {
    if StartStep(w, w', pid) {
      StartHands(w, w', pid);
    } else if CommitStep(w, w', pid) {
      CommitHands(w, w', pid);
    } else if DuplicateStep(w, w', pid) || PrepareStep(w, w', pid) || SubmitStep(w, w', pid) {
      OtherHands(w, w', pid);
    } else if ApplyStep(w, w', pid) {
      var next :| w' == w.(callers := w.callers[pid := PutHistory(w.callers[pid].request, w.callers[pid].after, w.pages.board, next)]);
      ApplyHands(w, w', pid, next);
    } else if PutStep(w, w', pid) {
      PutHands(w, w', pid);
    } else {
      var next :| ReadStep(w, w.callers[pid], next) && w' == w.(callers := Put(w.callers, pid, next));
      ReadHands(w, w', pid, next);
    }
    HandsAsked(w, w', pid);
  }

  lemma EveryoneAsked(ws: seq<World>, i: nat)
    requires Execution(ws) && i < |ws|
    ensures AllAsked(ws[i])
  {
    var asked := (w: World) => AllAsked(w);
    forall k: nat | k + 1 < |ws| && asked(ws[k])
      ensures asked(ws[k + 1])
    {
      assert StepAt(ws, k);
      var pid :| StepBy(ws[k], ws[k + 1], pid);
      StepAsked(ws[k], ws[k + 1], pid);
    }
    InductAlong(ws, asked, i);
    assert asked(ws[i]);
  }

  lemma {:induction false} IntroducedAt(log: Log, op: Id) returns (k: nat)
    requires EverIntroduced(log, op)
    ensures k < |log| && Introduced(log[k].change) == Some(op)
    decreases |log|
  {
    if Introduced(Last(log).change) == Some(op) {
      k := |log| - 1;
    } else {
      k := IntroducedAt(Init(log), op);
    }
  }

  /** Whatever introduces a reservation goes on to finish it. */
  lemma IntroducerFinishes(op: Id, request: Request, after: After)
    requires Issues(request, after) && Introduced(request.change) == Some(op)
    ensures Finishes(after, op)
  {
  }

  /** The request that introduced an effect is still there to be retried, and retrying it would finish the effect. */
  lemma IntroducerRetries(w: World, op: Id) returns (request: Request, after: After)
    requires AllAsked(w) && ReceiptsMatch(w.log, w.pages.receipts) && EverIntroduced(w.log, op)
    ensures Issues(request, after) && Finishes(after, op) && Retries(w, request)
  {
    var k := IntroducedAt(w.log, op);
    assert Asked(w.log[k].operationId, w.log[k].intent, w.log[k].change);
    var expected, x :| Issues(Request(w.log[k].operationId, expected, w.log[k].intent, w.log[k].change), x);
    request, after := Request(w.log[k].operationId, expected, w.log[k].intent, w.log[k].change), x;
    IntroducerFinishes(op, request, after);
  }

  /** Every unclaimed reservation on any Board of any run has its exact retry. */
  lemma EveryReservationHasItsRetry(ws: seq<World>, i: nat, op: Id) returns (request: Request, after: After)
    requires Execution(ws) && i < |ws| && Unclaimed(ws[i].pages.board, op)
    ensures Issues(request, after) && Finishes(after, op) && Retries(ws[i], request)
  {
    RunSafe(ws, i);
    EveryoneAsked(ws, i);
    AttemptedAtMostOnce(ws[i].conversation, ws[i].files, ws[i].log, op);
    request, after := IntroducerRetries(ws[i], op);
  }

  // -- A change is what its intent said ---------------------------------------------------------

  /** What a wake says happened, by what the input was about. */
  predicate WakeSays(input: Input, event: WakeEvent, entity: Id) {
    match input
    case ProgressInput(_, runId, _, _, _) => event.BlockerEvent? && entity == runId
    case ReportInput(_, runId, _, _) => event.ResultEvent? && entity == runId
    case ResultInput(_, runId, _, _, _) => event.ResultEvent? && entity == runId
    case DecisionInput(_, askId, _, _) => event.DecisionEvent? && entity == askId
    case UnavailableInput(_, _, _) => false
  }

  /** The change is about what the input was about: the same run and job and the claims it made, the same settlement, or
      the member's own words. */
  predicate EventSays(input: Input, event: Event) {
    match input
    case ProgressInput(_, runId, jobId, progress, _) =>
      event.Progressed? && event.runId == runId && event.jobId == jobId
      && event.progress.sequence == progress.sequence && event.progress.summary == progress.summary && event.progress.source.Some?
    case ReportInput(_, runId, jobId, _) => event.Reported? && event.runId == runId && event.jobId == jobId
    case ResultInput(_, runId, jobId, settlement, _) =>
      event.Settled? && event.runId == runId && event.jobId == jobId && event.settlement == settlement
    case DecisionInput(op, askId, source, text) =>
      event.Decision? && event.askId == askId && event.reply.source == source && event.reply.text == text && event.reply.decisionId == op
    case UnavailableInput(_, runId, jobId) => event.Unavailable? && event.runId == runId && event.jobId == jobId
  }

  predicate Means(intent: Intent, c: Change) {
    match intent
    case CommandIntent(ChangeCommand(_, _, action)) => c.Decided? && c.action == action
    case CommandIntent(DispatchCommand(op, _, taskId, anew)) => c.Dispatch? && c.operationId == op && c.taskId == taskId && c.anew == anew
    case CommandIntent(ControlCommand(op, _, runId, steer, text)) =>
      c.Control? && c.operationId == op && c.runId == runId && c.steer == steer && c.text == text
    case InputIntent(input) =>
      c.Provider? && EventSays(input, c.event) && (c.wake.Some? ==> WakeSays(input, c.wake.value.event, c.wake.value.entityId))
    case AttemptIntent(op, attemptId, effect) => c.Attempt? && c.operationId == op && c.attemptId == attemptId && c.effect == effect
    case ReceiptIntent(receipt) => c.Acknowledged? && c.receipt == receipt
  }

  lemma AskedMeans(op: Id, intent: Intent, c: Change)
    requires Asked(op, intent, c)
    ensures Means(intent, c)
  {
  }

  /** On every run, what was committed under an operation is what its recorded intent said. */
  lemma EveryChangeIsItsIntent(ws: seq<World>, i: nat, k: nat)
    requires Execution(ws) && i < |ws| && k < |ws[i].log|
    ensures Means(ws[i].log[k].intent, ws[i].log[k].change)
  {
    EveryoneAsked(ws, i);
    AskedMeans(ws[i].log[k].operationId, ws[i].log[k].intent, ws[i].log[k].change);
  }
}

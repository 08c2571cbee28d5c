/** What reaches the network is what was reserved, and what was reserved is what the committed request asked for. */
module Submissions {
  import opened Values
  import opened Boards
  import opened Policy
  import opened Invariant
  import opened Store
  import opened Service
  import opened AtMostOnce
  import opened Executions
  import opened Refinement
  import opened Ledger

  // -- Reserved -----------------------------------------------------------------------

  /** Some committed Board reserved this very payload for the operation, and the effect is bound to it. */
  ghost predicate Reserves(conversation: Id, log: Log, op: Id, effect: Effect) {
    && effect.request == op
    && exists k :: 0 <= k <= |log| && Holds(Current(conversation, log[..k]), op, effect.payload)
  }

  predicate Holds(b: Board, op: Id, payload: Payload) {
    op in b.outbox && b.outbox[op].payload == payload
  }

  function AfterOf(c: Caller): Option<After> {
    match c
    case AskReceipt(_, after) => Some(after)
    case ReadBoard(_, after, _) => Some(after)
    case PutHistory(_, after, _, _) => Some(after)
    case CommitPages(_, after, _, _, _, _, _) => Some(after)
    case _ => None
  }

  ghost predicate AfterReserved(conversation: Id, log: Log, after: Option<After>) {
    after.Some? && after.value.SubmitAttempt? ==> Reserves(conversation, log, after.value.operationId, after.value.effect)
  }

  /** Whatever a caller will submit was reserved. */
  ghost predicate CallerReserved(conversation: Id, log: Log, c: Caller) {
    && AfterReserved(conversation, log, AfterOf(c))
    && (c.PrepareEffect? ==> Snapshot(conversation, log, c.board))
    && (c.SubmitEffect? ==> Reserves(conversation, log, c.operationId, c.effect))
    && (c.ReconcileLookup? ==> EverHeld(conversation, log, c.operationId))
  }

  /** Some committed Board had the operation in its outbox. */
  predicate EverHeld(conversation: Id, log: Log, op: Id) {
    exists k :: 0 <= k <= |log| && op in Current(conversation, log[..k]).outbox
  }

  ghost predicate SubmissionsReserved(conversation: Id, log: Log, submissions: seq<Submission>) {
    forall i :: 0 <= i < |submissions| ==> Reserves(conversation, log, submissions[i].operationId, submissions[i].effect)
  }

  ghost predicate AllReserved(w: World) {
    && (forall pid :: pid in w.callers ==> CallerReserved(w.conversation, w.log, w.callers[pid]))
    && SubmissionsReserved(w.conversation, w.log, w.submissions)
  }

  // -- A longer log keeps it -------------------------------------------------------------

  lemma ReservesLater(conversation: Id, log: Log, log': Log, op: Id, effect: Effect)
    requires log <= log' && Reserves(conversation, log, op, effect)
    ensures Reserves(conversation, log', op, effect)
  {
    var k :| 0 <= k <= |log| && Holds(Current(conversation, log[..k]), op, effect.payload);
    assert log'[..k] == log[..k];
  }

  lemma SnapshotLater(conversation: Id, log: Log, log': Log, b: Board)
    requires log <= log' && Snapshot(conversation, log, b)
    ensures Snapshot(conversation, log', b)
  {
    var k :| 0 <= k <= |log| && b == Current(conversation, log[..k]);
    assert log'[..k] == log[..k];
  }

  lemma HeldLater(conversation: Id, log: Log, log': Log, op: Id)
    requires log <= log' && EverHeld(conversation, log, op)
    ensures EverHeld(conversation, log', op)
  {
    var k :| 0 <= k <= |log| && op in Current(conversation, log[..k]).outbox;
    assert log'[..k] == log[..k];
  }

  lemma CallerLater(conversation: Id, log: Log, log': Log, c: Caller)
    requires log <= log' && CallerReserved(conversation, log, c)
    ensures CallerReserved(conversation, log', c)
  {
    if AfterOf(c).Some? && AfterOf(c).value.SubmitAttempt? {
      ReservesLater(conversation, log, log', AfterOf(c).value.operationId, AfterOf(c).value.effect);
    }
    if c.PrepareEffect? {
      SnapshotLater(conversation, log, log', c.board);
    }
    if c.SubmitEffect? {
      ReservesLater(conversation, log, log', c.operationId, c.effect);
    }
    if c.ReconcileLookup? {
      HeldLater(conversation, log, log', c.operationId);
    }
  }

  /** One caller moves on to something still reserved; the log may grow, and it may submit what was reserved. */
  ghost predicate Hands(w: World, w': World, pid: nat) {
    && w'.conversation == w.conversation && w.log <= w'.log
    && (forall p :: p in w'.callers && p != pid ==> p in w.callers && w.callers[p] == w'.callers[p])
    && (pid in w'.callers ==> CallerReserved(w.conversation, w'.log, w'.callers[pid]))
    && (w'.submissions == w.submissions || SubmitsReserved(w, w'))
  }

  ghost predicate SubmitsReserved(w: World, w': World) {
    exists s :: w'.submissions == w.submissions + [s] && Reserves(w.conversation, w.log, s.operationId, s.effect)
  }

  lemma HandsReserved(w: World, w': World, pid: nat)
    requires AllReserved(w) && Hands(w, w', pid)
    ensures AllReserved(w')
  {
    forall p | p in w'.callers
      ensures CallerReserved(w'.conversation, w'.log, w'.callers[p])
    {
      if p != pid {
        CallerLater(w.conversation, w.log, w'.log, w.callers[p]);
      }
    }
    forall i | 0 <= i < |w'.submissions|
      ensures Reserves(w'.conversation, w'.log, w'.submissions[i].operationId, w'.submissions[i].effect)
    {
      ReservesLater(w.conversation, w.log, w'.log, w'.submissions[i].operationId, w'.submissions[i].effect);
    }
  }

  // -- Each step ----------------------------------------------------------------------------

  lemma ProceedReserved(conversation: Id, log: Log, after: After, board: Board, replayed: bool)
    requires AfterReserved(conversation, log, Some(after)) && Snapshot(conversation, log, board)
    ensures Proceed(after, board, replayed).Some? ==> CallerReserved(conversation, log, Proceed(after, board, replayed).value)
  {
  }

  lemma CurrentSnapshot(conversation: Id, log: Log, k: nat)
    requires k < |log|
    ensures Snapshot(conversation, log, log[k].board)
  {
    assert log[..k + 1][k] == log[k] && Current(conversation, log[..k + 1]) == log[k].board;
  }

  lemma ShownSnapshot(w: World)
    requires w.pages.board == Current(w.conversation, w.log)
    ensures Snapshot(w.conversation, w.log, w.pages.board)
  {
    assert w.log[..|w.log|] == w.log;
  }

  lemma StartHands(w: World, w': World, pid: nat)
    requires StartStep(w, w', pid)
    ensures Hands(w, w', pid)
  {
  }

  lemma ReadHands(w: World, w': World, pid: nat, next: Option<Caller>)
    requires w.pages.board == Current(w.conversation, w.log) && pid in w.callers && CallerReserved(w.conversation, w.log, w.callers[pid])
    requires ReadStep(w, w.callers[pid], next) && w' == w.(callers := Put(w.callers, pid, next))
    ensures Hands(w, w', pid)
  {
    ShownSnapshot(w);
    assert w.log[..|w.log|] == w.log;
    var c := w.callers[pid];
    if c.ReadBoard? {
      ProceedReserved(w.conversation, w.log, c.after, w.pages.board, true);
    }
  }

  lemma ApplyHands(w: World, w': World, pid: nat, next: Board)
    requires pid in w.callers && CallerReserved(w.conversation, w.log, w.callers[pid]) && w.callers[pid].ReadBoard?
    requires w' == w.(callers := w.callers[pid := PutHistory(w.callers[pid].request, w.callers[pid].after, w.pages.board, next)])
    ensures Hands(w, w', pid)
  {
  }

  lemma PutHands(w: World, w': World, pid: nat)
    requires pid in w.callers && CallerReserved(w.conversation, w.log, w.callers[pid]) && PutStep(w, w', pid)
    ensures Hands(w, w', pid)
  {
  }

  lemma CommitHands(w: World, w': World, pid: nat)
    requires pid in w.callers && CallerReserved(w.conversation, w.log, w.callers[pid]) && CommitStep(w, w', pid)
    ensures Hands(w, w', pid)
  {
    var c := w.callers[pid];
    CallerLater(w.conversation, w.log, w'.log, c);
    CurrentSnapshot(w.conversation, w'.log, |w.log|);
    ProceedReserved(w.conversation, w'.log, c.after, c.value, false);
  }

  lemma DuplicateHands(w: World, w': World, pid: nat)
    requires pid in w.callers && CallerReserved(w.conversation, w.log, w.callers[pid]) && DuplicateStep(w, w', pid)
    ensures Hands(w, w', pid)
  {
    var c := w.callers[pid];
    var k :| 0 <= k < |w.log| && w.log[k].operationId == c.request.operationId && w.log[k].board == c.value;
    CurrentSnapshot(w.conversation, w.log, k);
    ProceedReserved(w.conversation, w.log, c.after, c.value, false);
  }

  lemma PrepareHands(w: World, w': World, pid: nat)
    requires pid in w.callers && CallerReserved(w.conversation, w.log, w.callers[pid]) && PrepareStep(w, w', pid)
    ensures Hands(w, w', pid)
  {
    var c := w.callers[pid];
    var k :| 0 <= k <= |w.log| && c.board == Current(w.conversation, w.log[..k]);
    assert Holds(Current(w.conversation, w.log[..k]), c.operationId, c.board.outbox[c.operationId].payload);
  }

  lemma SubmitHands(w: World, w': World, pid: nat)
    requires pid in w.callers && CallerReserved(w.conversation, w.log, w.callers[pid]) && SubmitStep(w, w', pid)
    ensures Hands(w, w', pid)
  {
    var c := w.callers[pid];
    assert w'.submissions == w.submissions + [Submission(c.operationId, c.attemptId, c.effect)];
  }

  lemma StepReserved(w: World, w': World, pid: nat)
    requires AllReserved(w) && w.pages.board == Current(w.conversation, w.log) && StepBy(w, w', pid)
    ensures AllReserved(w')
  {
    if StartStep(w, w', pid) {
      StartHands(w, w', pid);
    } else if CommitStep(w, w', pid) {
      CommitHands(w, w', pid);
    } else if DuplicateStep(w, w', pid) {
      DuplicateHands(w, w', pid);
    } else if PrepareStep(w, w', pid) {
      PrepareHands(w, w', pid);
    } else if SubmitStep(w, w', pid) {
      SubmitHands(w, w', pid);
    } else if ApplyStep(w, w', pid) {
      var next :| w' == w.(callers := w.callers[pid := PutHistory(w.callers[pid].request, w.callers[pid].after, w.pages.board, next)]);
      ApplyHands(w, w', pid, next);
    } else if PutStep(w, w', pid) {
      PutHands(w, w', pid);
    } else {
      var next :| ReadStep(w, w.callers[pid], next) && w' == w.(callers := Put(w.callers, pid, next));
      ReadHands(w, w', pid, next);
    }
    HandsReserved(w, w', pid);
  }

  lemma NextReserved(ws: seq<World>, i: nat)
    requires Execution(ws) && i + 1 < |ws| && AllReserved(ws[i])
    ensures AllReserved(ws[i + 1])
  {
    RunSafe(ws, i);
    assert StepAt(ws, i);
    var pid :| StepBy(ws[i], ws[i + 1], pid);
    StepReserved(ws[i], ws[i + 1], pid);
  }

  lemma EveryoneReserved(ws: seq<World>, i: nat)
    requires Execution(ws) && i < |ws|
    ensures AllReserved(ws[i])
  {
    var reserved := (w: World) => AllReserved(w);
    forall k: nat | k + 1 < |ws| && reserved(ws[k])
      ensures reserved(ws[k + 1])
    {
      NextReserved(ws, k);
    }
    InductAlong(ws, reserved, i);
    assert reserved(ws[i]);
  }

  /** On every run, what is submitted for an operation is bound to it and carries the payload a committed Board reserved. */
  lemma SubmittedAsReserved(ws: seq<World>, i: nat, j: nat)
    requires Execution(ws) && i < |ws| && j < |ws[i].submissions|
    ensures Reserves(ws[i].conversation, ws[i].log, ws[i].submissions[j].operationId, ws[i].submissions[j].effect)
  {
    EveryoneReserved(ws, i);
  }

  /** On every run, the network is only ever asked about operations some committed Board had in its outbox. */
  lemma OnlyHeldIsLookedUp(ws: seq<World>, i: nat, pid: nat)
    requires Execution(ws) && i < |ws| && pid in ws[i].callers && ws[i].callers[pid].ReconcileLookup?
    ensures EverHeld(ws[i].conversation, ws[i].log, ws[i].callers[pid].operationId)
  {
    EveryoneReserved(ws, i);
    assert CallerReserved(ws[i].conversation, ws[i].log, ws[i].callers[pid]);
  }

  // -- Asked for --------------------------------------------------------------------------

  /** A dispatch asks for its own task's worker with its own prompt, in the retained conversation unless a fresh one is
      asked for or none is retained; a control addresses the run's job with its own text; a wake says what happened. */
  predicate AskedFor(before: Board, c: Change, op: Id, payload: Payload) {
    match c
    case Dispatch(o, t, anew, prompt) =>
      && o == op && t in before.tasks
      && payload.DispatchJob? && payload.runId == op && payload.taskId == t && payload.prompt == prompt
      && (payload.conversation.Fresh? <==> anew || before.tasks[t].conversationId.None?)
      && (payload.conversation.Continue? ==> Some(payload.conversation.conversationId) == before.tasks[t].conversationId)
    case Control(o, r, steer, text) =>
      && o == op && r in before.runs && IsLive(before.runs[r])
      && payload.ControlJob? && payload.runId == r && payload.steer == steer && payload.text == text
      && Some(payload.jobId) == before.runs[r].jobId
    case Provider(_, Some(w)) => w.operationId == op && payload == WakeChief(before.conversationId, w.event, w.entityId)
    case _ => false
  }

  /** Whatever is in the outbox afterwards was there, or was asked for now. */
  predicate Enters(before: Board, c: Change, after: Board) {
    forall op :: op in after.outbox ==>
      Holds(before, op, after.outbox[op].payload) || AskedFor(before, c, op, after.outbox[op].payload)
  }

  ghost function Entering(): (Board, Change, Board) -> bool {
    (before, c, after) => Enters(before, c, after)
  }

  lemma DecideEnters(b: Board, action: Action)
    requires Decide(b, action).Ok?
    ensures Decide(b, action).value.outbox == b.outbox
  {
  }

  lemma AcknowledgeEnters(b: Board, receipt: EffectReceipt)
    requires Acknowledge(b, receipt).Ok?
    ensures Acknowledge(b, receipt).value.outbox == b.outbox - {receipt.operationId}
  {
  }

  lemma EventEnters(b: Board, event: Event)
    requires SaveEvent(b, event).Ok?
    ensures SaveEvent(b, event).value.outbox == b.outbox && SaveEvent(b, event).value.conversationId == b.conversationId
  {
  }

  lemma TransformEnters(b: Board, c: Change)
    requires Transform(b, c).Ok?
    ensures Enters(b, c, Transform(b, c).value)
  {
    match c
    case Decided(action) => DecideEnters(b, action);
    case Acknowledged(receipt) => AcknowledgeEnters(b, receipt);
    case Provider(event, _) => EventEnters(b, event);
    case _ =>
  }

  lemma AnswersEnter(b: Board, c: Change, after: Board)
    requires Answers(b, c, after)
    ensures Enters(b, c, after)
  {
    TransformEnters(b, c);
  }

  /** Whatever an outbox holds, one committed change asked for it. */
  lemma {:induction false} EntryWasAskedFor(conversation: Id, log: Log, op: Id) returns (j: nat)
    requires Chained(conversation, log, Entering()) && op in Current(conversation, log).outbox
    ensures j < |log| && AskedFor(Current(conversation, log[..j]), log[j].change, op, Current(conversation, log).outbox[op].payload)
    decreases |log|
  {
    var payload := Current(conversation, log).outbox[op].payload;
    if Holds(Current(conversation, Init(log)), op, payload) {
      j := EntryWasAskedFor(conversation, Init(log), op);
      assert Init(log)[..j] == log[..j];
    } else {
      j := |log| - 1;
      assert log[..j] == Init(log);
    }
  }

  lemma ReservedWasAskedFor(conversation: Id, log: Log, op: Id, effect: Effect) returns (j: nat)
    requires Chained(conversation, log, Entering()) && Reserves(conversation, log, op, effect)
    ensures j < |log| && AskedFor(Current(conversation, log[..j]), log[j].change, op, effect.payload)
  {
    var k :| 0 <= k <= |log| && Holds(Current(conversation, log[..k]), op, effect.payload);
    ChainedPrefix(conversation, log, Entering(), k);
    j := EntryWasAskedFor(conversation, log[..k], op);
    assert log[..k][..j] == log[..j];
  }

  lemma EveryLogEnters(conversation: Id, log: Log)
    requires Honoured(conversation, log)
    ensures Chained(conversation, log, Entering())
  {
    forall b, c, a | Answering()(b, c, a)
      ensures Entering()(b, c, a)
    {
      AnswersEnter(b, c, a);
    }
    ChainedImplies(conversation, log, Answering(), Entering());
  }

  /** On every run, everything submitted is what one committed request asked for. */
  lemma SubmittedAsAsked(ws: seq<World>, i: nat, j: nat) returns (k: nat)
    requires Execution(ws) && i < |ws| && j < |ws[i].submissions|
    ensures
      var s := ws[i].submissions[j];
      k < |ws[i].log| && AskedFor(Current(ws[i].conversation, ws[i].log[..k]), ws[i].log[k].change, s.operationId, s.effect.payload)
  {
    EveryLogHonoured(ws, i);
    EveryLogEnters(ws[i].conversation, ws[i].log);
    SubmittedAsReserved(ws, i, j);
    k := ReservedWasAskedFor(ws[i].conversation, ws[i].log, ws[i].submissions[j].operationId, ws[i].submissions[j].effect);
  }
}

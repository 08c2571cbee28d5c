/** A reservation that never claimed an attempt can be finished: an exact retry, left alone,
    claims it, commits the claim and submits the effect. */
module Completion {
  import opened Values
  import opened Boards
  import opened Policy
  import opened Unwedged
  import opened Store
  import opened Service
  import opened AtMostOnce

  /** The identity of a prepared effect, as validation accepts it. */
  predicate Sendable(entry: Entry, op: Id, effect: Effect) {
    && effect.request == op && effect.payload == entry.payload && BoundedText(effect.runId, 1024)
    && effect.target == if entry.payload.WakeChief? then RunsTarget else TasksTarget
  }

  predicate Unclaimed(b: Board, op: Id) {
    op in b.outbox && b.outbox[op].status.Reserved?
  }

  function Attempted(b: Board, op: Id, attemptId: Id, effect: Effect): Board
    requires Unclaimed(b, op)
  {
    Committed(b, MarkAttempted(b, op, attemptId, effect).value)
  }

  /** Claiming an attempt is never refused by validation. */
  lemma ClaimCommits(b: Board, op: Id, n: nat, effect: Effect)
    requires Valid(b) && b.revision < MAX_SAFE && Unclaimed(b, op) && Sendable(b.outbox[op], op, effect)
    ensures Commits(b, Attempt(op, Uuid(n), effect), Attempted(b, op, Uuid(n), effect))
  {
    var changed := MarkAttempted(b, op, Uuid(n), effect).value;
    assert changed.outbox.Keys == b.outbox.Keys;
    assert |changed.outbox.Keys| == |b.outbox.Keys|;
    FinishStaysValid(b, changed);
  }

  function Claim(b: Board, op: Id, n: nat, effect: Effect): Request {
    Request(Child(AttemptPhase, Uuid(n)), b.revision, AttemptIntent(op, Uuid(n), effect), Attempt(op, Uuid(n), effect))
  }

  /** A claim introduces no file but its own record. */
  lemma ClaimRoots(b: Board, op: Id, n: nat, effect: Effect, ref: FileRef)
    requires Unclaimed(b, op)
    ensures RootsFor(b, RecordOf(Claim(b, op, n, effect), b, Attempted(b, op, Uuid(n), effect)), ref, {ref.hash})
  {
    var next := Attempted(b, op, Uuid(n), effect);
    var record := RecordOf(Claim(b, op, n, effect), b, next);
    assert record.delta.tasks.upsert == map[] && record.delta.runs.upsert == map[] && record.delta.asks.upsert == map[];
    forall x | RecordRefers(record, x)
      ensures Retained(b, x.hash)
    {
      assert BoardRefers(b, x);
    }
  }

  // -- The worlds a lone caller goes through ---------------------------------------------------

  function At(w: World, pid: nat, c: Caller): World {
    w.(callers := w.callers[pid := c])
  }

  function AtClaim(w: World, pid: nat, op: Id, effect: Effect, prior: Option<Option<Receipt>>): World {
    var request := Claim(w.pages.board, op, w.nextUuid, effect);
    var after := SubmitAttempt(op, Uuid(w.nextUuid), effect);
    At(w.(nextUuid := w.nextUuid + 1), pid,
       if prior.None? then AskReceipt(request, after) else ReadBoard(request, after, prior.value))
  }

  function AtPut(w: World, pid: nat, op: Id, effect: Effect): World
    requires Unclaimed(w.pages.board, op)
  {
    At(w.(nextUuid := w.nextUuid + 1), pid,
       PutHistory(Claim(w.pages.board, op, w.nextUuid, effect), SubmitAttempt(op, Uuid(w.nextUuid), effect), w.pages.board,
                  Attempted(w.pages.board, op, Uuid(w.nextUuid), effect)))
  }

  function Landing(w: World, op: Id, effect: Effect, ref: FileRef): Caller
    requires Unclaimed(w.pages.board, op)
  {
    var b := w.pages.board;
    var request := Claim(b, op, w.nextUuid, effect);
    var next := Attempted(b, op, Uuid(w.nextUuid), effect);
    CommitPages(request, SubmitAttempt(op, Uuid(w.nextUuid), effect), b, next.(history := Some(ref)), ref,
                RecordOf(request, b, next), {ref.hash})
  }

  function AtCommit(w: World, pid: nat, op: Id, effect: Effect, ref: FileRef): World
    requires Unclaimed(w.pages.board, op)
  {
    var c := Landing(w, op, effect, ref);
    At(w.(nextUuid := w.nextUuid + 1, files := w.files[ref := c.record]), pid, c)
  }

  function AtSubmit(w: World, pid: nat, op: Id, effect: Effect, ref: FileRef): World
    requires Unclaimed(w.pages.board, op)
  {
    var c := Landing(w, op, effect, ref);
    var committed := AtCommit(w, pid, op, effect, ref);
    committed.(pages := Service.Pages(c.value, w.pages.receipts[c.request.operationId :=
                                                                Receipt(c.request.intent, c.value.revision, c.ref, c.roots)]),
    log := w.log + [LogEntry(c.request.operationId, c.request.intent, c.request.change, c.value, c.record, c.roots)],
    callers := committed.callers[pid := SubmitEffect(op, Uuid(w.nextUuid), effect)])
  }

  function Submitted(w: World, pid: nat, op: Id, effect: Effect, ref: FileRef): World
    requires Unclaimed(w.pages.board, op)
  {
    var ready := AtSubmit(w, pid, op, effect, ref);
    ready.(submissions := w.submissions + [Submission(op, Uuid(w.nextUuid), effect)], callers := ready.callers - {pid})
  }

  // -- Each is one step from the last ---------------------------------------------------------------

  lemma Prepares(w: World, pid: nat, op: Id, effect: Effect)
    requires Unclaimed(w.pages.board, op) && Sendable(w.pages.board.outbox[op], op, effect)
    ensures PrepareStep(At(w, pid, PrepareEffect(w.pages.board, op)), AtClaim(w, pid, op, effect, None), pid)
  {
    var from := At(w, pid, PrepareEffect(w.pages.board, op));
    assert AtClaim(w, pid, op, effect, None).callers == from.callers[pid := AtClaim(w, pid, op, effect, None).callers[pid]];
  }

  lemma AsksReceipt(w: World, pid: nat, op: Id, effect: Effect)
    requires Durable(w)
    ensures ReadStep(AtClaim(w, pid, op, effect, None), AtClaim(w, pid, op, effect, None).callers[pid],
                     Some(AtClaim(w, pid, op, effect, Some(None)).callers[pid]))
    ensures AtClaim(w, pid, op, effect, Some(None)).callers
            == Put(AtClaim(w, pid, op, effect, None).callers, pid, Some(AtClaim(w, pid, op, effect, Some(None)).callers[pid]))
  {
    FreshAttempt(w);
  }

  lemma AppliesTo(w: World, pid: nat, op: Id, effect: Effect)
    requires Unclaimed(w.pages.board, op)
    ensures
      var from, to := AtClaim(w, pid, op, effect, Some(None)), AtPut(w, pid, op, effect);
      var c := from.callers[pid];
      && c.ReadBoard? && c.prior.None? && from.pages == w.pages && c.request.expectedRevision == w.pages.board.revision
      && c.request.change == Attempt(op, Uuid(w.nextUuid), effect)
      && to == from.(callers := from.callers[pid := PutHistory(c.request, c.after, w.pages.board, Attempted(w.pages.board, op, Uuid(w.nextUuid), effect))])
  {
    var from, to := AtClaim(w, pid, op, effect, Some(None)), AtPut(w, pid, op, effect);
    assert to.callers == from.callers[pid := to.callers[pid]];
  }

  lemma Puts(w: World, pid: nat, op: Id, effect: Effect, ref: FileRef)
    requires Unclaimed(w.pages.board, op) && ValidRef(ref) && ref !in w.files
    ensures PutStep(AtPut(w, pid, op, effect), AtCommit(w, pid, op, effect, ref), pid)
  {
    ClaimRoots(w.pages.board, op, w.nextUuid, effect, ref);
    var from, to := AtPut(w, pid, op, effect), AtCommit(w, pid, op, effect, ref);
    assert to.callers == from.callers[pid := to.callers[pid]];
  }

  lemma Lands(w: World, pid: nat, op: Id, effect: Effect, ref: FileRef)
    requires Durable(w) && Unclaimed(w.pages.board, op)
    ensures CommitStep(AtCommit(w, pid, op, effect, ref), AtSubmit(w, pid, op, effect, ref), pid)
  {
    FreshAttempt(w);
    var from, to := AtCommit(w, pid, op, effect, ref), AtSubmit(w, pid, op, effect, ref);
    var next := Some(to.callers[pid]);
    assert to.callers == Put(from.callers, pid, next);
    assert next == Proceed(from.callers[pid].after, from.callers[pid].value, false);
  }

  lemma Submits(w: World, pid: nat, op: Id, effect: Effect, ref: FileRef)
    requires Unclaimed(w.pages.board, op)
    ensures SubmitStep(AtSubmit(w, pid, op, effect, ref), Submitted(w, pid, op, effect, ref), pid)
  {
    var from, to := AtSubmit(w, pid, op, effect, ref), Submitted(w, pid, op, effect, ref);
    assert to.callers == Put(from.callers, pid, None);
  }

  // -- The whole way --------------------------------------------------------------------------------

  lemma StartsStep(w: World, pid: nat, request: Request, after: After)
    requires pid !in w.callers && Issues(request, after)
    ensures Step(w, At(w, pid, AskReceipt(request, after)))
  {
    assert StartStep(w, At(w, pid, AskReceipt(request, after)), pid);
    assert StepBy(w, At(w, pid, AskReceipt(request, after)), pid);
  }

  lemma ReadsStep(w: World, w': World, pid: nat, next: Caller)
    requires pid in w.callers && ReadStep(w, w.callers[pid], Some(next)) && w' == w.(callers := Put(w.callers, pid, Some(next)))
    ensures Step(w, w')
  {
    assert StepBy(w, w', pid);
  }

  lemma AppliesStep(w: World, w': World, pid: nat, next: Board)
    requires pid in w.callers && w.callers[pid].ReadBoard? && w.callers[pid].prior.None?
    requires w.pages.board.revision == w.callers[pid].request.expectedRevision
    requires Commits(w.pages.board, w.callers[pid].request.change, next)
    requires w' == w.(callers := w.callers[pid := PutHistory(w.callers[pid].request, w.callers[pid].after, w.pages.board, next)])
    ensures Step(w, w')
  {
    assert ApplyStep(w, w', pid);
    assert StepBy(w, w', pid);
  }

  lemma TakesStep(w: World, w': World, pid: nat)
    requires pid in w.callers && (PutStep(w, w', pid) || CommitStep(w, w', pid) || PrepareStep(w, w', pid) || SubmitStep(w, w', pid))
    ensures Step(w, w')
  {
    assert StepBy(w, w', pid);
  }

  /** What a command does after its change, and an input that may have reserved a wake. */
  predicate Finishes(after: After, op: Id) {
    after == SubmitEntry(op) || after == FinishInput(op)
  }

  /** The exact retry of a committed request. */
  predicate Retries(w: World, request: Request) {
    request.operationId in w.pages.receipts && w.pages.receipts[request.operationId].intent == request.intent
  }

  /** The retry finds its own receipt, and the reservation still unclaimed. */
  lemma RetryReads(w: World, pid: nat, request: Request, after: After, op: Id)
    requires Retries(w, request) && Finishes(after, op) && Unclaimed(w.pages.board, op)
    ensures
      var prior := Some(w.pages.receipts[request.operationId]);
      && ReadStep(At(w, pid, AskReceipt(request, after)), AskReceipt(request, after), Some(ReadBoard(request, after, prior)))
      && ReadStep(At(w, pid, ReadBoard(request, after, prior)), ReadBoard(request, after, prior), Some(PrepareEffect(w.pages.board, op)))
  {
  }

  lemma MovesAt(w: World, pid: nat, c: Caller, d: Caller)
    requires ReadStep(At(w, pid, c), c, Some(d))
    ensures Step(At(w, pid, c), At(w, pid, d))
  {
    assert At(w, pid, d).callers == Put(At(w, pid, c).callers, pid, Some(d));
    ReadsStep(At(w, pid, c), At(w, pid, d), pid, d);
  }

  lemma ClaimAsked(w: World, pid: nat, op: Id, effect: Effect)
    requires Durable(w)
    ensures Step(AtClaim(w, pid, op, effect, None), AtClaim(w, pid, op, effect, Some(None)))
  {
    AsksReceipt(w, pid, op, effect);
    var from, to := AtClaim(w, pid, op, effect, None), AtClaim(w, pid, op, effect, Some(None));
    ReadsStep(from, to, pid, to.callers[pid]);
  }

  lemma ClaimApplied(w: World, pid: nat, op: Id, effect: Effect)
    requires Unclaimed(w.pages.board, op)
    requires Commits(w.pages.board, Attempt(op, Uuid(w.nextUuid), effect), Attempted(w.pages.board, op, Uuid(w.nextUuid), effect))
    ensures Step(AtClaim(w, pid, op, effect, Some(None)), AtPut(w, pid, op, effect))
  {
    AppliesTo(w, pid, op, effect);
    AppliesStep(AtClaim(w, pid, op, effect, Some(None)), AtPut(w, pid, op, effect), pid, Attempted(w.pages.board, op, Uuid(w.nextUuid), effect));
  }

  /** Steps in a row. */
  ghost predicate StepByStep(ws: seq<World>) {
    ws != [] && (|ws| == 1 || (StepByStep(ws[..|ws| - 1]) && Step(ws[|ws| - 2], ws[|ws| - 1])))
  }

  lemma WalkOn(ws: seq<World>, w: World)
    requires StepByStep(ws) && Step(ws[|ws| - 1], w)
    ensures StepByStep(ws + [w])
  {
    assert (ws + [w])[..|ws|] == ws;
  }

  /** Some steps in a row lead from one world to the other. */
  ghost predicate CanReach(w: World, w': World) {
    exists ws :: StepByStep(ws) && ws[0] == w && ws[|ws| - 1] == w'
  }

  lemma ReachSelf(w: World)
    ensures CanReach(w, w)
  {
    assert StepByStep([w]);
  }

  lemma ReachOn(w: World, a: World, b: World)
    requires CanReach(w, a) && Step(a, b)
    ensures CanReach(w, b)
  {
    var ws :| StepByStep(ws) && ws[0] == w && ws[|ws| - 1] == a;
    WalkOn(ws, b);
    assert (ws + [b])[0] == w && (ws + [b])[|ws + [b]| - 1] == b;
  }

  lemma RetryReaches(w: World, pid: nat, request: Request, after: After, op: Id)
    requires pid !in w.callers && Issues(request, after) && Finishes(after, op) && Retries(w, request) && Unclaimed(w.pages.board, op)
    ensures CanReach(w, At(w, pid, PrepareEffect(w.pages.board, op)))
  {
    var ask := AskReceipt(request, after);
    var read := ReadBoard(request, after, Some(w.pages.receipts[request.operationId]));
    var ready := PrepareEffect(w.pages.board, op);
    RetryReads(w, pid, request, after, op);
    ReachSelf(w);
    StartsStep(w, pid, request, after);
    ReachOn(w, w, At(w, pid, ask));
    MovesAt(w, pid, ask, read);
    ReachOn(w, At(w, pid, ask), At(w, pid, read));
    MovesAt(w, pid, read, ready);
    ReachOn(w, At(w, pid, read), At(w, pid, ready));
  }

  lemma ClaimPrepared(w: World, pid: nat, op: Id, effect: Effect)
    requires Unclaimed(w.pages.board, op) && Sendable(w.pages.board.outbox[op], op, effect)
    ensures Step(At(w, pid, PrepareEffect(w.pages.board, op)), AtClaim(w, pid, op, effect, None))
  {
    Prepares(w, pid, op, effect);
    TakesStep(At(w, pid, PrepareEffect(w.pages.board, op)), AtClaim(w, pid, op, effect, None), pid);
  }

  lemma ClaimPut(w: World, pid: nat, op: Id, effect: Effect, ref: FileRef)
    requires Unclaimed(w.pages.board, op) && ValidRef(ref) && ref !in w.files
    ensures Step(AtPut(w, pid, op, effect), AtCommit(w, pid, op, effect, ref))
  {
    Puts(w, pid, op, effect, ref);
    TakesStep(AtPut(w, pid, op, effect), AtCommit(w, pid, op, effect, ref), pid);
  }

  lemma ClaimLanded(w: World, pid: nat, op: Id, effect: Effect, ref: FileRef)
    requires Durable(w) && Unclaimed(w.pages.board, op)
    ensures Step(AtCommit(w, pid, op, effect, ref), AtSubmit(w, pid, op, effect, ref))
  {
    Lands(w, pid, op, effect, ref);
    TakesStep(AtCommit(w, pid, op, effect, ref), AtSubmit(w, pid, op, effect, ref), pid);
  }

  lemma ClaimSubmitted(w: World, pid: nat, op: Id, effect: Effect, ref: FileRef)
    requires Unclaimed(w.pages.board, op)
    ensures Step(AtSubmit(w, pid, op, effect, ref), Submitted(w, pid, op, effect, ref))
  {
    Submits(w, pid, op, effect, ref);
    TakesStep(AtSubmit(w, pid, op, effect, ref), Submitted(w, pid, op, effect, ref), pid);
  }

  lemma ReachThrice(w: World, start: World, a: World, b: World, c: World)
    requires CanReach(w, start) && Step(start, a) && Step(a, b) && Step(b, c)
    ensures CanReach(w, c)
  {
    ReachOn(w, start, a);
    ReachOn(w, a, b);
    ReachOn(w, b, c);
  }

  /** An exact retry of a command or input whose reservation never claimed an attempt can run to its one submission. */
  lemma ExactRetrySubmits(w: World, pid: nat, request: Request, after: After, op: Id, effect: Effect, ref: FileRef)
    requires Durable(w) && pid !in w.callers && Issues(request, after) && Finishes(after, op) && Retries(w, request)
    requires Unclaimed(w.pages.board, op) && Sendable(w.pages.board.outbox[op], op, effect)
    requires Commits(w.pages.board, Attempt(op, Uuid(w.nextUuid), effect), Attempted(w.pages.board, op, Uuid(w.nextUuid), effect))
    requires ValidRef(ref) && ref !in w.files
    ensures CanReach(w, Submitted(w, pid, op, effect, ref))
  {
    RetryReaches(w, pid, request, after, op);
    ClaimPrepared(w, pid, op, effect);
    ClaimAsked(w, pid, op, effect);
    ClaimApplied(w, pid, op, effect);
    ReachThrice(w, At(w, pid, PrepareEffect(w.pages.board, op)), AtClaim(w, pid, op, effect, None), AtClaim(w, pid, op, effect, Some(None)),
                AtPut(w, pid, op, effect));
    ClaimPut(w, pid, op, effect, ref);
    ClaimLanded(w, pid, op, effect, ref);
    ClaimSubmitted(w, pid, op, effect, ref);
    ReachThrice(w, AtPut(w, pid, op, effect), AtCommit(w, pid, op, effect, ref), AtSubmit(w, pid, op, effect, ref),
                Submitted(w, pid, op, effect, ref));
  }
}

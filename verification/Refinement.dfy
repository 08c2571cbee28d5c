/** The store refines an atomic apply-once log, and every Board it holds is valid. */
module Refinement {
  import opened Values
  import opened Graph
  import opened Boards
  import opened Policy
  import opened Invariant
  import opened Store
  import opened Service
  import opened AtMostOnce
  import opened Executions

  /** One atomic application: an unused operation commits a change to the Board at hand, which
      gains a history head, and leaves one receipt for the new revision. */
  ghost predicate AppliesAtomically(p: Pages, p': Pages, op: Id, intent: Intent, c: Change, next: Board) {
    && op !in p.receipts && op in p'.receipts
    && Commits(p.board, c, next)
    && p'.board.history.Some? && p'.board == next.(history := p'.board.history)
    && p'.receipts == p.receipts[op := p'.receipts[op]]
    && p'.receipts[op].intent == intent && p'.receipts[op].revision == p.board.revision + 1
    && p'.receipts[op].history == p'.board.history.value
  }

  ghost predicate Applies(p: Pages, p': Pages) {
    exists op, intent, c, next :: AppliesAtomically(p, p', op, intent, c, next)
  }

  /** What a caller is about to commit really is its change applied to the Board it read. */
  ghost predicate Honest(c: Caller) {
    && (c.PutHistory? ==> Commits(c.base, c.request.change, c.next))
    && (c.CommitPages? ==>
         && ValidRef(c.ref)
         && exists next :: Commits(c.base, c.request.change, next) && c.value == next.(history := Some(c.ref)))
  }

  ghost predicate AllHonest(w: World) {
    forall pid :: pid in w.callers ==> Honest(w.callers[pid])
  }

  /** Only the caller at `pid` moved, and it has nothing to commit. */
  predicate Clears(w: World, w': World, pid: nat) {
    && (pid in w'.callers ==> !w'.callers[pid].PutHistory? && !w'.callers[pid].CommitPages?)
    && forall p :: p in w'.callers && p != pid ==> p in w.callers && w.callers[p] == w'.callers[p]
  }

  lemma ClearsHonest(w: World, w': World, pid: nat)
    requires AllHonest(w) && Clears(w, w', pid)
    ensures AllHonest(w')
  {
  }

  lemma StepClears(w: World, w': World, pid: nat)
    requires StartStep(w, w', pid) || (pid in w.callers && (CommitStep(w, w', pid) || DuplicateStep(w, w', pid)
               || PrepareStep(w, w', pid) || SubmitStep(w, w', pid)))
    ensures Clears(w, w', pid)
  {
  }

  lemma ReadClears(w: World, w': World, pid: nat, next: Option<Caller>)
    requires pid in w.callers && ReadStep(w, w.callers[pid], next) && w' == w.(callers := Put(w.callers, pid, next))
    ensures Clears(w, w', pid)
  {
  }

  lemma PutHonest(w: World, w': World, pid: nat)
    requires AllHonest(w) && pid in w.callers && PutStep(w, w', pid)
    ensures AllHonest(w')
  {
    var c := w.callers[pid];
    assert Honest(c);
    assert Commits(c.base, c.request.change, c.next);
  }

  lemma ApplyHonest(w: World, w': World, pid: nat)
    requires AllHonest(w) && pid in w.callers && ApplyStep(w, w', pid)
    ensures AllHonest(w')
  {
  }

  lemma StepHonest(w: World, w': World, pid: nat)
    requires AllHonest(w) && StepBy(w, w', pid)
    ensures AllHonest(w')
  {
    if StartStep(w, w', pid) || CommitStep(w, w', pid) || DuplicateStep(w, w', pid)
       || PrepareStep(w, w', pid) || SubmitStep(w, w', pid) {
      StepClears(w, w', pid);
      ClearsHonest(w, w', pid);
    } else if ApplyStep(w, w', pid) {
      ApplyHonest(w, w', pid);
    } else if PutStep(w, w', pid) {
      PutHonest(w, w', pid);
    } else {
      var next :| ReadStep(w, w.callers[pid], next) && w' == w.(callers := Put(w.callers, pid, next));
      ReadClears(w, w', pid, next);
      ClearsHonest(w, w', pid);
    }
  }

  lemma CommitBase(w: World, pid: nat)
    requires Safe(w) && pid in w.callers && w.callers[pid].CommitPages?
    requires w.pages.board.revision == w.callers[pid].base.revision
    ensures w.callers[pid].base == w.pages.board
    ensures w.callers[pid].value.revision == w.pages.board.revision + 1
  {
    assert CallerOk(w, w.callers[pid]);
    DurableBoard(w);
    SnapshotIsCurrent(w.conversation, w.files, w.log, w.callers[pid].base);
  }

  /** Every step of the system leaves the stored pages alone or applies one change atomically. */
  lemma CommitRefines(w: World, w': World, pid: nat) returns (next: Board)
    requires Safe(w) && AllHonest(w) && pid in w.callers && CommitStep(w, w', pid)
    ensures var c := w.callers[pid];
            AppliesAtomically(w.pages, w'.pages, c.request.operationId, c.request.intent, c.request.change, next)
    ensures ValidRef(w'.pages.board.history.value)
  {
    var c := w.callers[pid];
    assert Honest(c);
    CommitBase(w, pid);
    next :| Commits(c.base, c.request.change, next) && c.value == next.(history := Some(c.ref));
  }

  lemma OtherStepsKeepPages(w: World, w': World, pid: nat)
    requires StepBy(w, w', pid) && !(pid in w.callers && CommitStep(w, w', pid))
    ensures w'.pages == w.pages && w'.log == w.log
  {
  }

  lemma EmptyBoardValid(conversation: Id)
    requires ValidId(conversation)
    ensures Valid(EmptyBoard(conversation))
  {
    var g := GraphOf(EmptyBoard(conversation).tasks);
    forall p: seq<Id>
      ensures !Cyclic(g, p)
    {
      if |p| >= 2 {
        assert !Edge(g, p[0], p[1]);
      }
    }
  }

  lemma HeadStaysValid(next: Board, head: FileRef)
    requires Valid(next) && ValidRef(head)
    ensures Valid(next.(history := Some(head)))
  {
  }

  lemma StepKeepsBoardValid(w: World, w': World, pid: nat)
    requires Safe(w) && AllHonest(w) && Valid(w.pages.board) && StepBy(w, w', pid)
    ensures Valid(w'.pages.board)
  {
    if pid in w.callers && CommitStep(w, w', pid) {
      var next := CommitRefines(w, w', pid);
      HeadStaysValid(next, w'.pages.board.history.value);
    } else {
      OtherStepsKeepPages(w, w', pid);
    }
  }

  lemma {:induction false} ExecutionHonest(ws: seq<World>, i: nat)
    requires Execution(ws) && i < |ws|
    ensures AllHonest(ws[i])
  {
    if i > 0 {
      ExecutionHonest(ws, i - 1);
      assert StepAt(ws, i - 1);
      var pid :| StepBy(ws[i - 1], ws[i], pid);
      StepHonest(ws[i - 1], ws[i], pid);
    }
  }

  lemma NextBoardValid(ws: seq<World>, i: nat)
    requires Execution(ws) && i + 1 < |ws| && Valid(ws[i].pages.board)
    ensures Valid(ws[i + 1].pages.board)
  {
    RunSafe(ws, i);
    ExecutionHonest(ws, i);
    assert StepAt(ws, i);
    var pid :| StepBy(ws[i], ws[i + 1], pid);
    StepKeepsBoardValid(ws[i], ws[i + 1], pid);
  }

  /** What the first state satisfies and every step keeps, every state satisfies. */
  lemma {:induction false} InductAlong(ws: seq<World>, p: World -> bool, i: nat)
    requires i < |ws| && p(ws[0])
    requires forall k: nat :: k + 1 < |ws| && p(ws[k]) ==> p(ws[k + 1])
    ensures p(ws[i])
  {
    if i > 0 {
      InductAlong(ws, p, i - 1);
      assert p(ws[i - 1]);
    }
  }

  lemma EveryBoardValid(ws: seq<World>, i: nat)
    requires Execution(ws) && i < |ws|
    ensures Valid(ws[i].pages.board)
  {
    var valid := (w: World) => Valid(w.pages.board);
    EmptyBoardValid(ws[0].conversation);
    forall k: nat | k + 1 < |ws| && valid(ws[k])
      ensures valid(ws[k + 1])
    {
      NextBoardValid(ws, k);
    }
    InductAlong(ws, valid, i);
    assert valid(ws[i]);
  }

  /** Every Board the store ever holds is valid and keeps the invariant. */
  lemma EveryBoardSound(ws: seq<World>, i: nat)
    requires Execution(ws) && i < |ws|
    ensures Valid(ws[i].pages.board) && Inv(ws[i].pages.board)
  {
    EveryBoardValid(ws, i);
    RunSafe(ws, i);
    DurableBoard(ws[i]);
  }

  /** Over every run, the store is an apply-once log: a step leaves it alone, or commits one
      change under an operation never used before. */
  lemma StoreAppliesOnce(ws: seq<World>, i: nat)
    requires Execution(ws) && i + 1 < |ws|
    ensures ws[i + 1].pages == ws[i].pages ||
            Applies(ws[i].pages, ws[i + 1].pages)
  {
    RunSafe(ws, i);
    ExecutionHonest(ws, i);
    assert StepAt(ws, i);
    var pid :| StepBy(ws[i], ws[i + 1], pid);
    if pid in ws[i].callers && CommitStep(ws[i], ws[i + 1], pid) {
      var next := CommitRefines(ws[i], ws[i + 1], pid);
    } else {
      OtherStepsKeepPages(ws[i], ws[i + 1], pid);
    }
  }

  /** Every revision up to the current one has its receipt. */
  lemma EveryRevisionHasReceipt(ws: seq<World>, i: nat, n: nat)
    requires Execution(ws) && i < |ws| && 1 <= n <= |ws[i].log|
    ensures ws[i].log[n - 1].operationId in ws[i].pages.receipts
    ensures ws[i].pages.receipts[ws[i].log[n - 1].operationId].revision == n
  {
    RunSafe(ws, i);
  }

  /** Revisions and receipts pair off, in every reachable state. */
  lemma ReceiptsBijectWithRevisions(ws: seq<World>, i: nat, op: Id)
    requires Execution(ws) && i < |ws| && op in ws[i].pages.receipts
    ensures ws[i].pages.board.revision == |ws[i].log|
    ensures var n := ws[i].pages.receipts[op].revision;
            && 1 <= n <= |ws[i].log| && ws[i].log[n - 1].operationId == op
            && ws[i].log[n - 1].intent == ws[i].pages.receipts[op].intent
            && forall other :: other in ws[i].pages.receipts && ws[i].pages.receipts[other].revision == n ==> other == op
  {
    RunSafe(ws, i);
    DurableBoard(ws[i]);
    forall other | other in ws[i].pages.receipts
      ensures exists k :: 0 <= k < |ws[i].log| && ws[i].log[k].operationId == other
                          && ws[i].pages.receipts[other].revision == k + 1
    {
      OperationsAre(ws[i].log, other);
      var k :| 0 <= k < |ws[i].log| && ws[i].log[k].operationId == other;
    }
  }

  /** An exact retry answers with the recorded revision and changes nothing; the same id with
      another intent is refused. */
  lemma RetryAnswersOrRefuses(ws: seq<World>, i: nat, request: Request, after: After, next: Option<Caller>)
    requires Execution(ws) && i < |ws| && request.operationId in ws[i].pages.receipts
    requires ReadStep(ws[i], ReadBoard(request, after, Some(ws[i].pages.receipts[request.operationId])), next)
    ensures next.Some? ==> next == Proceed(after, ws[i].pages.board, true)
    ensures exists k :: 0 <= k < |ws[i].log| && ws[i].log[k].operationId == request.operationId
              && ws[i].pages.receipts[request.operationId].revision == k + 1
              && (request.intent != ws[i].log[k].intent ==> next.None?)
  {
    RunSafe(ws, i);
    OperationsAre(ws[i].log, request.operationId);
    var k :| 0 <= k < |ws[i].log| && ws[i].log[k].operationId == request.operationId;
  }
}

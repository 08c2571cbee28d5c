/** Optimistic concurrency: whatever races, a command commits on the very revision its caller had seen, or not at all. */
module Expected {
  import opened Values
  import opened Boards
  import opened Policy
  import opened Store
  import opened Service
  import opened AtMostOnce
  import opened Executions
  import opened Refinement

  predicate Expects(intent: Intent, revision: int) {
    intent.CommandIntent? ==> intent.command.expectedRevision == revision
  }

  /** A request keeps its command's expectation, and what it is about to commit was made from that revision. */
  predicate CallerExpects(c: Caller) {
    match c
    case AskReceipt(request, _) => Expects(request.intent, request.expectedRevision)
    case ReadBoard(request, _, _) => Expects(request.intent, request.expectedRevision)
    case PutHistory(request, _, base, _) => Expects(request.intent, base.revision)
    case CommitPages(request, _, base, _, _, _, _) => Expects(request.intent, base.revision)
    case _ => true
  }

  predicate AllExpected(w: World) {
    && (forall pid :: pid in w.callers ==> CallerExpects(w.callers[pid]))
    && (forall k :: 0 <= k < |w.log| ==> Expects(w.log[k].intent, k))
  }

  /** One caller moves and still keeps its expectation, and what is logged lands on the revision it expected. */
  predicate KeepsTo(w: World, w': World, pid: nat) {
    && (forall p :: p in w'.callers && p != pid ==> p in w.callers && w.callers[p] == w'.callers[p])
    && (pid in w'.callers ==> CallerExpects(w'.callers[pid]))
    && (w'.log == w.log || (w'.log != [] && Init(w'.log) == w.log && Expects(Last(w'.log).intent, |w.log|)))
  }

  lemma KeepsExpected(w: World, w': World, pid: nat)
    requires AllExpected(w) && KeepsTo(w, w', pid)
    ensures AllExpected(w')
  {
    forall k | 0 <= k < |w'.log|
      ensures Expects(w'.log[k].intent, k)
    {
      assert k < |w.log| ==> w'.log[k] == w.log[k];
    }
  }

  lemma StartKeeps(w: World, w': World, pid: nat)
    requires StartStep(w, w', pid)
    ensures KeepsTo(w, w', pid)
  {
  }

  lemma ReadKeeps(w: World, w': World, pid: nat, next: Option<Caller>)
    requires pid in w.callers && CallerExpects(w.callers[pid])
    requires ReadStep(w, w.callers[pid], next) && w' == w.(callers := Put(w.callers, pid, next))
    ensures KeepsTo(w, w', pid)
  {
  }

  lemma ApplyKeeps(w: World, w': World, pid: nat, next: Board)
    requires pid in w.callers && CallerExpects(w.callers[pid]) && w.callers[pid].ReadBoard?
    requires w.pages.board.revision == w.callers[pid].request.expectedRevision
    requires w' == w.(callers := w.callers[pid := PutHistory(w.callers[pid].request, w.callers[pid].after, w.pages.board, next)])
    ensures KeepsTo(w, w', pid)
  {
  }

  lemma CommitKeeps(w: World, w': World, pid: nat)
    requires pid in w.callers && CallerExpects(w.callers[pid]) && CommitStep(w, w', pid) && w.pages.board.revision == |w.log|
    ensures KeepsTo(w, w', pid)
  {
  }

  lemma OtherKeeps(w: World, w': World, pid: nat)
    requires pid in w.callers && CallerExpects(w.callers[pid])
    requires PutStep(w, w', pid) || DuplicateStep(w, w', pid) || PrepareStep(w, w', pid) || SubmitStep(w, w', pid)
    ensures KeepsTo(w, w', pid)
  {
  }

  lemma StepExpected(w: World, w': World, pid: nat)
    requires AllExpected(w) && w.pages.board.revision == |w.log| && StepBy(w, w', pid)
    ensures AllExpected(w')
  {
    if StartStep(w, w', pid) {
      StartKeeps(w, w', pid);
    } else if CommitStep(w, w', pid) {
      CommitKeeps(w, w', pid);
    } else if ApplyStep(w, w', pid) {
      var next :| w' == w.(callers := w.callers[pid := PutHistory(w.callers[pid].request, w.callers[pid].after, w.pages.board, next)]);
      ApplyKeeps(w, w', pid, next);
    } else if PutStep(w, w', pid) || DuplicateStep(w, w', pid) || PrepareStep(w, w', pid) || SubmitStep(w, w', pid) {
      OtherKeeps(w, w', pid);
    } else {
      var next :| ReadStep(w, w.callers[pid], next) && w' == w.(callers := Put(w.callers, pid, next));
      ReadKeeps(w, w', pid, next);
    }
    KeepsExpected(w, w', pid);
  }

  lemma NextExpected(ws: seq<World>, i: nat)
    requires Execution(ws) && i + 1 < |ws| && AllExpected(ws[i])
    ensures AllExpected(ws[i + 1])
  {
    RunSafe(ws, i);
    DurableBoard(ws[i]);
    assert StepAt(ws, i);
    var pid :| StepBy(ws[i], ws[i + 1], pid);
    StepExpected(ws[i], ws[i + 1], pid);
  }

  /** On every run, every committed command was applied to exactly the revision it named. */
  lemma EveryCommandSawItsRevision(ws: seq<World>, i: nat, k: nat)
    requires Execution(ws) && i < |ws| && k < |ws[i].log| && ws[i].log[k].intent.CommandIntent?
    ensures ws[i].log[k].intent.command.expectedRevision == k == Current(ws[i].conversation, ws[i].log[..k]).revision
  {
    var expected := (w: World) => AllExpected(w);
    forall n: nat | n + 1 < |ws| && expected(ws[n])
      ensures expected(ws[n + 1])
    {
      NextExpected(ws, n);
    }
    InductAlong(ws, expected, i);
    assert expected(ws[i]);
    RunSafe(ws, i);
    RevisionAt(ws[i].conversation, ws[i].files, ws[i].log, k);
  }

  lemma RevisionAt(conversation: Id, files: Files, log: Log, k: nat)
    requires Tracked(conversation, files, log) && k <= |log|
    ensures Current(conversation, log[..k]).revision == k
  {
    TrackedPrefix(conversation, files, log, k);
  }
}

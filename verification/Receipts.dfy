/** Every receipt on record is what the network answered about that very operation. */
module Receipts {
  import opened Values
  import opened Boards
  import opened Policy
  import opened Store
  import opened Service
  import opened AtMostOnce
  import opened Executions
  import opened Refinement

  predicate Answered(w: World, c: Change) {
    c.Acknowledged? ==> w.answers(c.receipt.operationId, c.receipt)
  }

  /** A receipt a caller is about to commit was answered for its own operation. */
  predicate CallerAnswered(w: World, c: Caller) {
    match c
    case AskReceipt(request, _) => Answered(w, request.change)
    case ReadBoard(request, _, _) => Answered(w, request.change)
    case PutHistory(request, _, _, _) => Answered(w, request.change)
    case CommitPages(request, _, _, _, _, _, _) => Answered(w, request.change)
    case CommitReceipt(receipt) => w.answers(receipt.operationId, receipt)
    case _ => true
  }

  predicate AllAnswered(w: World) {
    && (forall pid :: pid in w.callers ==> CallerAnswered(w, w.callers[pid]))
    && (forall k :: 0 <= k < |w.log| ==> Answered(w, w.log[k].change))
  }

  /** The network stays what it is; one caller moves, still in order; what is logged was answered. */
  ghost predicate Minds(w: World, w': World, pid: nat) {
    && w'.answers == w.answers
    && (forall p :: p in w'.callers && p != pid ==> p in w.callers && w.callers[p] == w'.callers[p])
    && (pid in w'.callers ==> CallerAnswered(w, w'.callers[pid]))
    && (w'.log == w.log || (w'.log != [] && Init(w'.log) == w.log && Answered(w, Last(w'.log).change)))
  }

  lemma MindsAnswers(w: World, w': World, pid: nat)
    requires AllAnswered(w) && Minds(w, w', pid)
    ensures AllAnswered(w')
  {
    forall k | 0 <= k < |w'.log|
      ensures Answered(w', w'.log[k].change)
    {
      assert k < |w.log| ==> w'.log[k] == w.log[k];
    }
  }

  lemma StartMinds(w: World, w': World, pid: nat)
    requires StartStep(w, w', pid)
    ensures Minds(w, w', pid)
  {
  }

  lemma ReadMinds(w: World, w': World, pid: nat, next: Option<Caller>)
    requires pid in w.callers && CallerAnswered(w, w.callers[pid])
    requires ReadStep(w, w.callers[pid], next) && w' == w.(callers := Put(w.callers, pid, next))
    ensures Minds(w, w', pid)
  {
  }

  lemma ApplyMinds(w: World, w': World, pid: nat, next: Board)
    requires pid in w.callers && CallerAnswered(w, w.callers[pid]) && w.callers[pid].ReadBoard?
    requires w' == w.(callers := w.callers[pid := PutHistory(w.callers[pid].request, w.callers[pid].after, w.pages.board, next)])
    ensures Minds(w, w', pid)
  {
  }

  lemma CommitMinds(w: World, w': World, pid: nat)
    requires pid in w.callers && CallerAnswered(w, w.callers[pid]) && CommitStep(w, w', pid)
    ensures Minds(w, w', pid)
  {
  }

  lemma OtherMinds(w: World, w': World, pid: nat)
    requires pid in w.callers && CallerAnswered(w, w.callers[pid])
    requires PutStep(w, w', pid) || DuplicateStep(w, w', pid) || PrepareStep(w, w', pid) || SubmitStep(w, w', pid)
    ensures Minds(w, w', pid)
  {
  }

  lemma StepAnswered(w: World, w': World, pid: nat)
    requires AllAnswered(w) && StepBy(w, w', pid)
    ensures AllAnswered(w')
  {
    if StartStep(w, w', pid) {
      StartMinds(w, w', pid);
    } else if CommitStep(w, w', pid) {
      CommitMinds(w, w', pid);
    } else if ApplyStep(w, w', pid) {
      var next :| w' == w.(callers := w.callers[pid := PutHistory(w.callers[pid].request, w.callers[pid].after, w.pages.board, next)]);
      ApplyMinds(w, w', pid, next);
    } else if PutStep(w, w', pid) || DuplicateStep(w, w', pid) || PrepareStep(w, w', pid) || SubmitStep(w, w', pid) {
      OtherMinds(w, w', pid);
    } else {
      var next :| ReadStep(w, w.callers[pid], next) && w' == w.(callers := Put(w.callers, pid, next));
      ReadMinds(w, w', pid, next);
    }
    MindsAnswers(w, w', pid);
  }

  /** On every run, every committed receipt is one the network gave when asked about that operation. */
  lemma EveryReceiptWasAnswered(ws: seq<World>, i: nat, k: nat)
    requires Execution(ws) && i < |ws| && k < |ws[i].log| && ws[i].log[k].change.Acknowledged?
    ensures ws[i].answers(ws[i].log[k].change.receipt.operationId, ws[i].log[k].change.receipt)
  {
    var answered := (w: World) => AllAnswered(w);
    forall n: nat | n + 1 < |ws| && answered(ws[n])
      ensures answered(ws[n + 1])
    {
      assert StepAt(ws, n);
      var pid :| StepBy(ws[n], ws[n + 1], pid);
      StepAnswered(ws[n], ws[n + 1], pid);
    }
    InductAlong(ws, answered, i);
    assert answered(ws[i]);
  }
}

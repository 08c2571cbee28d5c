/** What a second delivery finds: retention settles, a dispatched task takes no second worker, and
    progress converges however its deliveries are ordered. */
module Repeats {
  import opened Values
  import opened Boards
  import opened Policy

  lemma RetainedOnce(b: Board)
    ensures RetainCurrentRuns(RetainCurrentRuns(b)) == RetainCurrentRuns(b)
  {
    var kept := RetainCurrentRuns(b);
    forall r | r in kept.runs
      ensures IsLive(kept.runs[r]) || InUse(kept, r)
    {
      assert InUse(b, r) ==> InUse(kept, r);
    }
  }

  lemma SizeAfterAdd(s: set<Id>, op: Id)
    ensures |s + {op}| <= |s| + 1
  {
    if op in s {
      assert s + {op} == s;
    }
  }

  /** A dispatch never exceeds the concurrency limit, and its task takes no second worker. */
  lemma DispatchBounded(b: Board, b': Board, op: Id, t: Id, anew: bool, prompt: string, op2: Id, anew2: bool, prompt2: string)
    requires ReserveRun(b, op, t, anew, prompt) == Ok(b')
    ensures b.concurrencyLimit.Some? ==> |LiveRuns(b')| <= b.concurrencyLimit.value
    ensures ReserveRun(b', op2, t, anew2, prompt2).Refused?
  {
    assert LiveRuns(b') == LiveRuns(b) + {op};
    SizeAfterAdd(LiveRuns(b), op);
    assert op in b'.runs && b'.runs[op].taskId == t && IsLive(b'.runs[op]);
  }

  // -- Progress in any order --------------------------------------------------------------

  /** Progress as a reader sees it, whenever it was observed. */
  function Shown(run: Run): Option<Progress> {
    match run.progress
    case None => None
    case Some(p) => Some(p.(sequence := 0))
  }

  lemma LateProgressIgnored(b: Board, b': Board, r: Id, job: Id, p: Progress, late: Progress)
    requires SaveProgress(b, r, job, p) == Ok(b') && ValidProgress(late) && late.sequence <= p.sequence
    ensures SaveProgress(b', r, job, late) == Ok(b')
  {
  }

  lemma ProgressShown(b: Board, b': Board, r: Id, job: Id, p: Progress)
    requires SaveProgress(b, r, job, p) == Ok(b') && p.sequence > b.runs[r].observedSequence
    ensures r in b'.runs && Shown(b'.runs[r]) == Some(p.(sequence := 0)) && b'.runs[r].observedSequence == p.sequence
    ensures b' == b.(runs := b.runs[r := b'.runs[r]]) && b'.runs[r].status.Running?
  {
  }

  /** Two checkpoints delivered in either order leave the same observed sequence and show the same progress. */
  lemma ProgressConverges(b: Board, r: Id, job: Id, p: Progress, q: Progress, pq: Board, qp: Board, afterP: Board, afterQ: Board)
    requires r in b.runs && b.runs[r].observedSequence < p.sequence < q.sequence
    requires SaveProgress(b, r, job, p) == Ok(afterP) && SaveProgress(afterP, r, job, q) == Ok(pq)
    requires SaveProgress(b, r, job, q) == Ok(afterQ) && SaveProgress(afterQ, r, job, p) == Ok(qp)
    ensures pq.runs[r].observedSequence == qp.runs[r].observedSequence == q.sequence
    ensures Shown(pq.runs[r]) == Shown(qp.runs[r]) == Some(q.(sequence := 0))
    ensures qp == afterQ && forall x :: x != r ==> (x in pq.runs <==> x in qp.runs) && (x in pq.runs ==> pq.runs[x] == qp.runs[x])
  {
    ProgressShown(b, afterP, r, job, p);
    ProgressShown(afterP, pq, r, job, q);
    ProgressShown(b, afterQ, r, job, q);
    LateProgressIgnored(b, afterQ, r, job, q, p);
  }
}

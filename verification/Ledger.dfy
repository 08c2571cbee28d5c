/** Every entry of every log is the policy's answer to its change, on exactly the revision its command expected. */
module Ledger {
  import opened Values
  import opened Boards
  import opened Policy
  import opened Store
  import opened Service
  import opened AtMostOnce
  import opened Executions
  import opened Refinement

  /** A Board a change was committed as, under its history record. */
  ghost predicate Answers(before: Board, c: Change, after: Board) {
    exists next :: Commits(before, c, next) && after == next.(history := after.history)
  }

  /** Every entry follows from the Board the entries before it left, by some relation. */
  ghost predicate Chained(conversation: Id, log: Log, follows: (Board, Change, Board) -> bool) {
    log == [] || (Chained(conversation, Init(log), follows) && follows(Current(conversation, Init(log)), Last(log).change, Last(log).board))
  }

  lemma {:induction false} ChainedPrefix(conversation: Id, log: Log, follows: (Board, Change, Board) -> bool, k: nat)
    requires Chained(conversation, log, follows) && k <= |log|
    ensures Chained(conversation, log[..k], follows)
    decreases |log|
  {
    if k < |log| {
      assert Init(log)[..k] == log[..k];
      ChainedPrefix(conversation, Init(log), follows, k);
    } else {
      assert log[..k] == log;
    }
  }

  lemma ChainedAt(conversation: Id, log: Log, follows: (Board, Change, Board) -> bool, k: nat)
    requires Chained(conversation, log, follows) && k < |log|
    ensures follows(Current(conversation, log[..k]), log[k].change, log[k].board)
  {
    ChainedPrefix(conversation, log, follows, k + 1);
    assert Init(log[..k + 1]) == log[..k] && Last(log[..k + 1]) == log[k];
  }

  lemma {:induction false} ChainedImplies(conversation: Id, log: Log, p: (Board, Change, Board) -> bool, q: (Board, Change, Board) -> bool)
    requires Chained(conversation, log, p) && forall b, c, a :: p(b, c, a) ==> q(b, c, a)
    ensures Chained(conversation, log, q)
  {
    if log != [] {
      ChainedImplies(conversation, Init(log), p, q);
    }
  }

  ghost function Answering(): (Board, Change, Board) -> bool {
    (before, c, after) => Answers(before, c, after)
  }

  /** Every entry is the policy's answer to its change. */
  ghost predicate Honoured(conversation: Id, log: Log) {
    Chained(conversation, log, Answering())
  }

  lemma HonouredAt(conversation: Id, log: Log, k: nat)
    requires Honoured(conversation, log) && k < |log|
    ensures Answers(Current(conversation, log[..k]), log[k].change, log[k].board)
  {
    ChainedAt(conversation, log, Answering(), k);
  }

  lemma AppliedAnswers(p: Pages, p': Pages, op: Id, intent: Intent, c: Change, next: Board)
    requires AppliesAtomically(p, p', op, intent, c, next)
    ensures Answers(p.board, c, p'.board)
  {
  }

  predicate Logs(w: World, w': World, pid: nat) {
    && pid in w.callers && w.callers[pid].CommitPages?
    && w'.log != [] && Init(w'.log) == w.log && Last(w'.log).change == w.callers[pid].request.change
    && Last(w'.log).board == w'.pages.board && w'.conversation == w.conversation
  }

  lemma CommitLogs(w: World, w': World, pid: nat)
    requires pid in w.callers && CommitStep(w, w', pid)
    ensures Logs(w, w', pid)
  {
  }

  lemma LogsHonour(w: World, w': World, pid: nat)
    requires Logs(w, w', pid) && Honoured(w.conversation, w.log) && w.pages.board == Current(w.conversation, w.log)
    requires Answers(w.pages.board, w.callers[pid].request.change, w'.pages.board)
    ensures Honoured(w'.conversation, w'.log)
  {
  }

  lemma CommitHonours(w: World, w': World, pid: nat)
    requires Safe(w) && AllHonest(w) && Honoured(w.conversation, w.log) && pid in w.callers && CommitStep(w, w', pid)
    ensures Honoured(w'.conversation, w'.log)
  {
    var next := CommitRefines(w, w', pid);
    var request := w.callers[pid].request;
    AppliedAnswers(w.pages, w'.pages, request.operationId, request.intent, request.change, next);
    CommitLogs(w, w', pid);
    LogsHonour(w, w', pid);
  }

  lemma StepKeepsConversation(w: World, w': World, pid: nat)
    requires StepBy(w, w', pid)
    ensures w'.conversation == w.conversation
  {
  }

  lemma NextHonoured(ws: seq<World>, i: nat)
    requires Execution(ws) && i + 1 < |ws| && Honoured(ws[i].conversation, ws[i].log)
    ensures Honoured(ws[i + 1].conversation, ws[i + 1].log)
  {
    RunSafe(ws, i);
    ExecutionHonest(ws, i);
    assert StepAt(ws, i);
    var pid :| StepBy(ws[i], ws[i + 1], pid);
    if pid in ws[i].callers && CommitStep(ws[i], ws[i + 1], pid) {
      CommitHonours(ws[i], ws[i + 1], pid);
    } else {
      OtherStepsKeepPages(ws[i], ws[i + 1], pid);
      StepKeepsConversation(ws[i], ws[i + 1], pid);
    }
  }

  lemma EveryLogHonoured(ws: seq<World>, i: nat)
    requires Execution(ws) && i < |ws|
    ensures Honoured(ws[i].conversation, ws[i].log)
  {
    var honoured := (w: World) => Honoured(w.conversation, w.log);
    forall k: nat | k + 1 < |ws| && honoured(ws[k])
      ensures honoured(ws[k + 1])
    {
      NextHonoured(ws, k);
    }
    InductAlong(ws, honoured, i);
    assert honoured(ws[i]);
  }
}

/** Under any interleaving of callers, retries, deaths and lost replies, the store applies each
    operation once and each external effect is submitted at most once. */
module AtMostOnce {
  import opened Values
  import opened Boards
  import opened Policy
  import opened Invariant
  import opened Store
  import opened History
  import opened Service

  // -- Durable state ------------------------------------------------------------------

  /** Receipts pair off with log entries: same operation, same intent, revision `k + 1`. */
  ghost predicate ReceiptsMatch(log: Log, receipts: map<Id, Receipt>) {
    && receipts.Keys == Operations(log)
    && forall k :: 0 <= k < |log| ==>
         && log[k].operationId in receipts && log[k].board.history.Some?
         && receipts[log[k].operationId] ==
            Receipt(log[k].intent, k + 1, log[k].board.history.value, log[k].roots)
  }

  /** Every committed attempt drew its id before now. */
  predicate AttemptsBelow(log: Log, nextUuid: nat) {
    forall k :: 0 <= k < |log| && log[k].change.Attempt? ==>
      && log[k].change.attemptId.Uuid? && log[k].change.attemptId.n < nextUuid
      && log[k].operationId == Child(AttemptPhase, log[k].change.attemptId)
  }

  ghost predicate Durable(w: World) {
    && Tracked(w.conversation, w.files, w.log)
    && w.pages.board == Current(w.conversation, w.log)
    && ValidRuns(w.pages.board.tasks, w.pages.board.runs)
    && ReceiptsMatch(w.log, w.pages.receipts)
    && AttemptsBelow(w.log, w.nextUuid)
  }

  // -- Callers ----------------------------------------------------------------------------

  /** The attempt a caller carries on its way to submitting. */
  function Carries(c: Caller): Option<Id> {
    match c
    case AskReceipt(_, after) => if after.SubmitAttempt? then Some(after.attemptId) else None
    case ReadBoard(_, after, _) => if after.SubmitAttempt? then Some(after.attemptId) else None
    case PutHistory(_, after, _, _) => if after.SubmitAttempt? then Some(after.attemptId) else None
    case CommitPages(_, after, _, _, _, _, _) => if after.SubmitAttempt? then Some(after.attemptId) else None
    case SubmitEffect(_, attemptId, _) => Some(attemptId)
    case _ => None
  }

  /** Only the attempt's own caller can commit it, and it has not. */
  predicate Claiming(log: Log, nextUuid: nat, request: Request, after: After) {
    && WellKeyed(request.operationId, request.change)
    && (request.change.Attempt? ==> after.SubmitAttempt?)
    && (after.SubmitAttempt? ==>
         && request.change == Attempt(after.operationId, after.attemptId, after.effect)
         && after.attemptId.Uuid? && after.attemptId.n < nextUuid
         && request.operationId !in Operations(log))
  }

  /** A Board read from a store with this log. */
  predicate Snapshot(conversation: Id, log: Log, b: Board) {
    exists k :: 0 <= k <= |log| && b == Current(conversation, log[..k])
  }

  ghost predicate CallerOk(w: World, c: Caller) {
    match c
    case AskReceipt(request, after) => Claiming(w.log, w.nextUuid, request, after)
    case ReadBoard(request, after, prior) =>
      Claiming(w.log, w.nextUuid, request, after) && (after.SubmitAttempt? ==> prior.None?)
    case PutHistory(request, after, base, next) =>
      && Claiming(w.log, w.nextUuid, request, after)
      && Snapshot(w.conversation, w.log, base)
      && Evolves(base, next, request.change) && next.revision == base.revision + 1
      && ValidRuns(next.tasks, next.runs)
    case CommitPages(request, after, base, value, ref, record, roots) =>
      && Claiming(w.log, w.nextUuid, request, after)
      && Snapshot(w.conversation, w.log, base)
      && Evolves(base, value, request.change) && value.revision == base.revision + 1
      && ValidRuns(value.tasks, value.runs)
      && value.history == Some(ref) && record == RecordOf(request, base, value)
      && ref in w.files && w.files[ref] == record && RootsFor(base, record, ref, roots)
    case SubmitEffect(op, attemptId, effect) =>
      && Attempts(w.log, op) == [(attemptId, effect)]
      && attemptId.Uuid? && attemptId.n < w.nextUuid
      && forall i :: 0 <= i < |w.submissions| ==> w.submissions[i].attemptId != attemptId
    case _ => true
  }

  ghost predicate EachCallerOk(w: World) {
    forall pid :: pid in w.callers ==> CallerOk(w, w.callers[pid])
  }

  /** No two callers carry the same attempt. */
  predicate Distinct(callers: map<nat, Caller>) {
    forall p, q :: p in callers && q in callers && p != q && Carries(callers[p]).Some? ==>
      Carries(callers[p]) != Carries(callers[q])
  }

  // -- Submissions --------------------------------------------------------------------------

  ghost predicate SubmissionsOk(w: World) {
    && (forall i :: 0 <= i < |w.submissions| ==>
          Attempts(w.log, w.submissions[i].operationId) == [(w.submissions[i].attemptId, w.submissions[i].effect)])
    && (forall i, j :: 0 <= i < j < |w.submissions| ==> w.submissions[i].attemptId != w.submissions[j].attemptId)
  }

  ghost predicate Safe(w: World) {
    Durable(w) && EachCallerOk(w) && Distinct(w.callers) && SubmissionsOk(w)
  }

  lemma InitialSafe(w: World)
    requires Initial(w)
    ensures Safe(w)
  {
  }

  // -- Steps that move one caller ---------------------------------------------------------------

  lemma DistinctPut(callers: map<nat, Caller>, pid: nat, next: Option<Caller>)
    requires Distinct(callers) && pid in callers
    requires next.Some? && Carries(next.value).Some? ==> Carries(next.value) == Carries(callers[pid])
    ensures Distinct(Put(callers, pid, next))
  {
  }

  /** A caller may move on if it is still in order and carries no attempt it did not carry. */
  lemma MoveKeeps(w: World, pid: nat, next: Option<Caller>)
    requires Safe(w) && pid in w.callers
    requires next.Some? ==> CallerOk(w, next.value)
    requires next.Some? && Carries(next.value).Some? ==> Carries(next.value) == Carries(w.callers[pid])
    ensures Safe(w.(callers := Put(w.callers, pid, next)))
  {
    var w' := w.(callers := Put(w.callers, pid, next));
    DistinctPut(w.callers, pid, next);
    forall p | p in w'.callers
      ensures CallerOk(w', w'.callers[p])
    {
      assert CallerOk(w, w'.callers[p]);
    }
  }

  lemma DistinctEnter(callers: map<nat, Caller>, pid: nat, c: Caller)
    requires Distinct(callers) && pid !in callers && Carries(c).None?
    ensures Distinct(callers[pid := c])
  {
  }

  lemma EnterKeeps(w: World, pid: nat, c: Caller)
    requires Safe(w) && pid !in w.callers && CallerOk(w, c) && Carries(c).None?
    ensures Safe(w.(callers := w.callers[pid := c]))
  {
    var w' := w.(callers := w.callers[pid := c]);
    DistinctEnter(w.callers, pid, c);
    forall p | p in w'.callers
      ensures CallerOk(w', w'.callers[p])
    {
      assert CallerOk(w, w'.callers[p]);
    }
  }

  lemma ReadStepOk(w: World, c: Caller, next: Option<Caller>)
    requires Durable(w) && CallerOk(w, c) && ReadStep(w, c, next) && next.Some?
    ensures CallerOk(w, next.value)
    ensures Carries(next.value).Some? ==> Carries(next.value) == Carries(c)
  {
  }

  lemma StartOk(w: World, c: Caller)
    requires c.ReconcileAsk? || (c.AskReceipt? && Issues(c.request, c.after))
    ensures CallerOk(w, c) && Carries(c).None?
  {
  }

  lemma ApplyKeeps(w: World, pid: nat, next: Board)
    requires Safe(w) && pid in w.callers && w.callers[pid].ReadBoard?
    requires Evolves(w.pages.board, next, w.callers[pid].request.change)
    requires next.revision == w.pages.board.revision + 1 && ValidRuns(next.tasks, next.runs)
    ensures var c := w.callers[pid];
            Safe(w.(callers := w.callers[pid := PutHistory(c.request, c.after, w.pages.board, next)]))
  {
    var c := w.callers[pid];
    assert CallerOk(w, c);
    assert w.log[..|w.log|] == w.log;
    MoveKeeps(w, pid, Some(PutHistory(c.request, c.after, w.pages.board, next)));
  }

  lemma DurableBoard(w: World)
    requires Durable(w)
    ensures Inv(w.pages.board) && ValidRuns(w.pages.board.tasks, w.pages.board.runs) && w.pages.board.revision == |w.log|
  {
    TrackedInv(w.conversation, w.files, w.log);
  }

  lemma ApplyStepKeeps(w: World, w': World, pid: nat)
    requires Safe(w) && pid in w.callers && ApplyStep(w, w', pid)
    ensures Safe(w')
  {
    var c := w.callers[pid];
    var next :| Commits(w.pages.board, c.request.change, next)
                && w' == w.(callers := w.callers[pid := PutHistory(c.request, c.after, w.pages.board, next)]);
    DurableBoard(w);
    CommitEvolves(w.pages.board, c.request.change, next);
    ApplyKeeps(w, pid, next);
  }

  // -- Writing a history record ---------------------------------------------------------------

  lemma FilesGrow(w: World, files': Files)
    requires Safe(w)
    requires forall ref :: ref in w.files ==> ref in files' && files'[ref] == w.files[ref]
    ensures Safe(w.(files := files'))
  {
    var w' := w.(files := files');
    TrackedGrows(w.conversation, w.files, files', w.log);
    forall p | p in w'.callers
      ensures CallerOk(w', w'.callers[p])
    {
      assert CallerOk(w, w.callers[p]);
    }
  }

  lemma RecordedOk(w: World, c: Caller, ref: FileRef, roots: set<string>)
    requires c.PutHistory? && CallerOk(w, c)
    requires ref in w.files && w.files[ref] == RecordOf(c.request, c.base, c.next)
    requires RootsFor(c.base, w.files[ref], ref, roots)
    ensures CallerOk(w, CommitPages(c.request, c.after, c.base, c.next.(history := Some(ref)), ref, w.files[ref], roots))
  {
  }

  lemma PutStepKeeps(w: World, w': World, pid: nat)
    requires Safe(w) && pid in w.callers && PutStep(w, w', pid)
    ensures Safe(w')
  {
    var c := w.callers[pid];
    var record := RecordOf(c.request, c.base, c.next);
    var ref, roots :| ValidRef(ref) && (ref in w.files ==> w.files[ref] == record)
      && RootsFor(c.base, record, ref, roots)
      && w' == w.(files := w.files[ref := record],
                  callers := w.callers[pid := CommitPages(c.request, c.after, c.base,
                                                          c.next.(history := Some(ref)), ref, record, roots)]);
    var mid := w.(files := w.files[ref := record]);
    FilesGrow(w, mid.files);
    RecordedOk(mid, c, ref, roots);
    MoveKeeps(mid, pid, Some(w'.callers[pid]));
  }

  // -- Submitting --------------------------------------------------------------------------------

  lemma SubmitCallers(w: World, w': World, pid: nat)
    requires EachCallerOk(w) && Distinct(w.callers) && pid in w.callers && SubmitStep(w, w', pid)
    ensures EachCallerOk(w') && Distinct(w'.callers)
  {
    var next: Option<Caller> :| (next.Some? ==> next.value.CommitReceipt?) && w'.callers == Put(w.callers, pid, next);
    DistinctPut(w.callers, pid, next);
    forall p | p in w'.callers
      ensures CallerOk(w', w'.callers[p])
    {
      if p != pid {
        assert CallerOk(w, w.callers[p]);
      }
    }
  }

  lemma SubmitSubmissions(w: World, w': World, pid: nat)
    requires SubmissionsOk(w) && pid in w.callers && CallerOk(w, w.callers[pid]) && SubmitStep(w, w', pid)
    ensures SubmissionsOk(w')
  {
  }

  lemma SubmitStepKeeps(w: World, w': World, pid: nat)
    requires Safe(w) && pid in w.callers && SubmitStep(w, w', pid)
    ensures Safe(w')
  {
    SubmitCallers(w, w', pid);
    SubmitSubmissions(w, w', pid);
  }

  // -- Preparing: a fresh attempt -------------------------------------------------------------------

  lemma FreshAttempt(w: World)
    requires Durable(w)
    ensures Child(AttemptPhase, Uuid(w.nextUuid)) !in Operations(w.log)
  {
    var op := Child(AttemptPhase, Uuid(w.nextUuid));
    OperationsAre(w.log, op);
    if op in Operations(w.log) {
      var k :| 0 <= k < |w.log| && w.log[k].operationId == op;
      EntryKeyed(w.conversation, w.files, w.log, k);
    }
  }

  lemma {:induction false} EntryKeyed(conversation: Id, files: Files, log: Log, k: nat)
    requires Tracked(conversation, files, log) && k < |log|
    ensures WellKeyed(log[k].operationId, log[k].change)
    decreases |log|
  {
    if k < |log| - 1 {
      EntryKeyed(conversation, files, Init(log), k);
    }
  }

  lemma PrepareCallers(w: World, w': World, pid: nat)
    requires EachCallerOk(w) && pid in w.callers && PrepareStep(w, w', pid)
    requires Child(AttemptPhase, Uuid(w.nextUuid)) !in Operations(w.log)
    ensures EachCallerOk(w')
    ensures Carries(w'.callers[pid]) == Some(Uuid(w.nextUuid))
    ensures forall p :: p in w.callers ==> Carries(w.callers[p]) != Some(Uuid(w.nextUuid))
  {
    forall p | p in w.callers
      ensures p != pid ==> CallerOk(w', w'.callers[p])
      ensures Carries(w.callers[p]) != Some(Uuid(w.nextUuid))
    {
      assert CallerOk(w, w.callers[p]);
    }
  }

  lemma PrepareStepKeeps(w: World, w': World, pid: nat)
    requires Safe(w) && pid in w.callers && PrepareStep(w, w', pid)
    ensures Safe(w')
  {
    FreshAttempt(w);
    PrepareCallers(w, w', pid);
  }

  // -- Committing ---------------------------------------------------------------------------------

  lemma {:induction false} AttemptIsOperation(conversation: Id, files: Files, log: Log, op: Id, i: nat)
    requires Tracked(conversation, files, log) && i < |Attempts(log, op)|
    ensures Child(AttemptPhase, Attempts(log, op)[i].0) in Operations(log)
    decreases |log|
  {
    if i < |Attempts(Init(log), op)| {
      AttemptIsOperation(conversation, files, Init(log), op, i);
    }
  }

  /** The Board a caller computed from is the current one if the revision still matches. */
  lemma SnapshotIsCurrent(conversation: Id, files: Files, log: Log, b: Board)
    requires Tracked(conversation, files, log) && Snapshot(conversation, log, b) && b.revision == |log|
    ensures b == Current(conversation, log)
  {
    var k :| 0 <= k <= |log| && b == Current(conversation, log[..k]);
    TrackedPrefix(conversation, files, log, k);
    TrackedInv(conversation, files, log[..k]);
    assert log[..|log|] == log;
  }

  function EntryOf(c: Caller): LogEntry
    requires c.CommitPages?
  {
    LogEntry(c.request.operationId, c.request.intent, c.request.change, c.value, c.record, c.roots)
  }

  lemma CommitTracked(w: World, c: Caller)
    requires Tracked(w.conversation, w.files, w.log) && c.CommitPages? && CallerOk(w, c)
    requires c.request.operationId !in Operations(w.log) && c.base.revision == |w.log|
    ensures Tracked(w.conversation, w.files, w.log + [EntryOf(c)])
    ensures Current(w.conversation, w.log + [EntryOf(c)]) == c.value
  {
    var log' := w.log + [EntryOf(c)];
    SnapshotIsCurrent(w.conversation, w.files, w.log, c.base);
    assert Init(log') == w.log;
  }

  lemma CommitReceipts(log: Log, receipts: map<Id, Receipt>, e: LogEntry, ref: FileRef)
    requires ReceiptsMatch(log, receipts) && e.operationId !in receipts && e.board.history == Some(ref)
    ensures ReceiptsMatch(log + [e], receipts[e.operationId := Receipt(e.intent, |log| + 1, ref, e.roots)])
  {
    assert Init(log + [e]) == log;
    forall k | 0 <= k < |log|
      ensures log[k].operationId != e.operationId
    {
      OperationsAre(log, log[k].operationId);
    }
  }

  lemma AttemptsStay(conversation: Id, files: Files, log: Log, e: LogEntry, op: Id)
    requires Tracked(conversation, files, log + [e]) && Attempts(log, op) != []
    ensures Attempts(log + [e], op) == Attempts(log, op)
  {
    assert Init(log + [e]) == log;
    AttemptedAtMostOnce(conversation, files, log + [e], op);
  }

  lemma SnapshotStays(conversation: Id, log: Log, e: LogEntry, b: Board)
    requires Snapshot(conversation, log, b)
    ensures Snapshot(conversation, log + [e], b)
  {
    var k :| 0 <= k <= |log| && b == Current(conversation, log[..k]);
    assert (log + [e])[..k] == log[..k];
  }

  lemma ClaimStays(w: World, c: Caller, request: Request, after: After)
    requires c.CommitPages? && Claiming(w.log, w.nextUuid, c.request, c.after)
    requires Claiming(w.log, w.nextUuid, request, after)
    requires after.SubmitAttempt? ==> Carries(c) != Some(after.attemptId)
    ensures Claiming(w.log + [EntryOf(c)], w.nextUuid, request, after)
  {
    assert Init(w.log + [EntryOf(c)]) == w.log;
  }

  /** Other callers are still in order after `c` commits. */
  lemma OtherStaysOk(w: World, c: Caller, d: Caller)
    requires c.CommitPages? && Claiming(w.log, w.nextUuid, c.request, c.after) && CallerOk(w, d)
    requires Carries(d).Some? ==> Carries(c) != Carries(d)
    requires Tracked(w.conversation, w.files, w.log + [EntryOf(c)])
    ensures CallerOk(w.(log := w.log + [EntryOf(c)]), d)
  {
    var e := EntryOf(c);
    match d
    case AskReceipt(request, after) => ClaimStays(w, c, request, after);
    case ReadBoard(request, after, _) => ClaimStays(w, c, request, after);
    case PutHistory(request, after, base, _) =>
      ClaimStays(w, c, request, after);
      SnapshotStays(w.conversation, w.log, e, base);
    case CommitPages(request, after, base, _, _, _, _) =>
      ClaimStays(w, c, request, after);
      SnapshotStays(w.conversation, w.log, e, base);
    case SubmitEffect(op, _, _) => AttemptsStay(w.conversation, w.files, w.log, e, op);
    case _ =>
  }

  lemma CommitSubmissions(w: World, c: Caller)
    requires c.CommitPages? && SubmissionsOk(w) && Tracked(w.conversation, w.files, w.log + [EntryOf(c)])
    ensures SubmissionsOk(w.(log := w.log + [EntryOf(c)]))
  {
    forall i | 0 <= i < |w.submissions|
      ensures Attempts(w.log + [EntryOf(c)], w.submissions[i].operationId) ==
              [(w.submissions[i].attemptId, w.submissions[i].effect)]
    {
      AttemptsStay(w.conversation, w.files, w.log, EntryOf(c), w.submissions[i].operationId);
    }
  }

  /** The caller whose attempt committed may submit: no one has submitted under it before. */
  lemma WinnerOk(w: World, c: Caller)
    requires c.CommitPages? && CallerOk(w, c) && c.after.SubmitAttempt?
    requires SubmissionsOk(w) && Tracked(w.conversation, w.files, w.log)
    requires Tracked(w.conversation, w.files, w.log + [EntryOf(c)])
    ensures CallerOk(w.(log := w.log + [EntryOf(c)]), SubmitEffect(c.after.operationId, c.after.attemptId, c.after.effect))
  {
    var log' := w.log + [EntryOf(c)];
    assert Init(log') == w.log;
    AttemptedAtMostOnce(w.conversation, w.files, log', c.after.operationId);
    forall i | 0 <= i < |w.submissions|
      ensures w.submissions[i].attemptId != c.after.attemptId
    {
      AttemptIsOperation(w.conversation, w.files, w.log, w.submissions[i].operationId, 0);
    }
  }

  lemma CommitBelow(log: Log, nextUuid: nat, c: Caller)
    requires AttemptsBelow(log, nextUuid) && c.CommitPages? && Claiming(log, nextUuid, c.request, c.after)
    ensures AttemptsBelow(log + [EntryOf(c)], nextUuid)
  {
  }

  /** The durable state after `c`'s compare-and-swap. */
  function Swapped(w: World, c: Caller): World
    requires c.CommitPages?
  {
    w.(pages := Pages(c.value, w.pages.receipts[c.request.operationId :=
                        Receipt(c.request.intent, c.value.revision, c.ref, c.roots)]),
       log := w.log + [EntryOf(c)])
  }

  lemma CommitDurable(w: World, c: Caller)
    requires Durable(w) && c.CommitPages? && CallerOk(w, c)
    requires c.request.operationId !in w.pages.receipts && w.pages.board.revision == c.base.revision
    ensures Durable(Swapped(w, c))
  {
    DurableBoard(w);
    CommitTracked(w, c);
    CommitBelow(w.log, w.nextUuid, c);
    CommitReceipts(w.log, w.pages.receipts, EntryOf(c), c.ref);
    assert c.value.revision == |w.log| + 1;
  }

  lemma ProceedOk(w: World, after: After, board: Board, next: Option<Caller>)
    requires next == Proceed(after, board, false) && next.Some?
    requires after.SubmitAttempt? ==> CallerOk(w, SubmitEffect(after.operationId, after.attemptId, after.effect))
    ensures CallerOk(w, next.value)
    ensures Carries(next.value) == if after.SubmitAttempt? then Some(after.attemptId) else None
  {
  }

  lemma SwapKeeps(w: World, pid: nat)
    requires Safe(w) && pid in w.callers && w.callers[pid].CommitPages?
    requires w.callers[pid].request.operationId !in w.pages.receipts
    requires w.pages.board.revision == w.callers[pid].base.revision
    ensures Durable(Swapped(w, w.callers[pid])) && SubmissionsOk(Swapped(w, w.callers[pid]))
    ensures forall p :: p in w.callers && p != pid ==> CallerOk(Swapped(w, w.callers[pid]), w.callers[p])
    ensures Tracked(w.conversation, w.files, w.log + [EntryOf(w.callers[pid])])
  {
    var c := w.callers[pid];
    assert CallerOk(w, c);
    CommitDurable(w, c);
    CommitSubmissions(w, c);
    forall p | p in w.callers && p != pid
      ensures CallerOk(Swapped(w, c), w.callers[p])
    {
      assert CallerOk(w, w.callers[p]);
      OtherStaysOk(w, c, w.callers[p]);
    }
  }

  lemma CommitStepKeeps(w: World, w': World, pid: nat)
    requires Safe(w) && pid in w.callers && CommitStep(w, w', pid)
    ensures Safe(w')
  {
    var c := w.callers[pid];
    var next :| (next == None || next == Proceed(c.after, c.value, false))
                && w' == Swapped(w, c).(callers := Put(w.callers, pid, next));
    SwapKeeps(w, pid);
    if next.Some? {
      if c.after.SubmitAttempt? {
        WinnerOk(w, c);
      }
      ProceedOk(w', c.after, c.value, next);
    }
    DistinctPut(w.callers, pid, next);
    SwappedCallers(w, w', pid, next);
  }

  lemma SwappedCallers(w: World, w': World, pid: nat, next: Option<Caller>)
    requires pid in w.callers && w.callers[pid].CommitPages?
    requires w' == Swapped(w, w.callers[pid]).(callers := Put(w.callers, pid, next))
    requires forall p :: p in w.callers && p != pid ==> CallerOk(Swapped(w, w.callers[pid]), w.callers[p])
    requires next.Some? ==> CallerOk(w', next.value)
    ensures EachCallerOk(w')
  {
    forall p | p in w'.callers
      ensures CallerOk(w', w'.callers[p])
    {
      if p != pid {
        assert CallerOk(Swapped(w, w.callers[pid]), w.callers[p]);
      }
    }
  }

  lemma DuplicateStepKeeps(w: World, w': World, pid: nat)
    requires Safe(w) && pid in w.callers && DuplicateStep(w, w', pid)
    ensures Safe(w')
  {
    var c := w.callers[pid];
    assert CallerOk(w, c);
    OperationsAre(w.log, c.request.operationId);
    assert !c.after.SubmitAttempt?;
    var next := Proceed(c.after, c.value, false);
    if next.Some? {
      ProceedOk(w, c.after, c.value, next);
    }
    MoveKeeps(w, pid, next);
  }

  lemma StepKeeps(w: World, w': World)
    requires Safe(w) && Step(w, w')
    ensures Safe(w')
  {
    var pid :| StepBy(w, w', pid);
    if StartStep(w, w', pid) {
      var c: Caller :| (c.ReconcileAsk? || (c.AskReceipt? && Issues(c.request, c.after)))
                       && w' == w.(callers := w.callers[pid := c]);
      StartOk(w, c);
      EnterKeeps(w, pid, c);
    } else if ApplyStep(w, w', pid) {
      ApplyStepKeeps(w, w', pid);
    } else if PutStep(w, w', pid) {
      PutStepKeeps(w, w', pid);
    } else if CommitStep(w, w', pid) {
      CommitStepKeeps(w, w', pid);
    } else if DuplicateStep(w, w', pid) {
      DuplicateStepKeeps(w, w', pid);
    } else if PrepareStep(w, w', pid) {
      PrepareStepKeeps(w, w', pid);
    } else if SubmitStep(w, w', pid) {
      SubmitStepKeeps(w, w', pid);
    } else {
      var next :| ReadStep(w, w.callers[pid], next) && w' == w.(callers := Put(w.callers, pid, next));
      if next.Some? {
        ReadStepOk(w, w.callers[pid], next);
      }
      MoveKeeps(w, pid, next);
    }
  }
}

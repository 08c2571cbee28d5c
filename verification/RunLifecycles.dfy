/** The same for runs, asks, rules and settings, and which runs a Board keeps. */
module RunLifecycles {
  import opened Values
  import opened Boards
  import opened Policy
  import opened Lifecycles

  // -- Runs -----------------------------------------------------------------------------------

  predicate StartsRun(c: Change, r: Id) {
    c.Dispatch? && c.operationId == r
  }

  function RunBefore(b: Board, c: Change, r: Id): Run
    requires r in b.runs || StartsRun(c, r)
  {
    if r in b.runs then b.runs[r] else Run(c.taskId, RunStatus.Reserved, None, None, None, None, -1, None)
  }

  /** A checkpoint not yet seen. */
  predicate Newer(b: Board, c: Change, r: Id) {
    && c.Provider? && c.event.Progressed? && c.event.runId == r
    && r in b.runs && b.runs[r].observedSequence < c.event.progress.sequence
  }

  function RunStatusSaid(b: Board, c: Change, r: Id): Option<RunStatus> {
    match c
    case Acknowledged(Dispatched(op, _, _)) => if Dispatches(b, op, r) then Some(RunStatus.Queued) else None
    case Acknowledged(Rejected(op, _)) => if Dispatches(b, op, r) then Some(Failed) else None
    case Provider(Progressed(_, _, _), _) => if Newer(b, c, r) then Some(RunStatus.Running) else None
    case Provider(Settled(x, _, how, _), _) =>
      if x != r then None
      else Some(match how case AsCompleted => Completed case AsFailed => Failed case AsCancelled => RunStatus.Cancelled)
    case Provider(Unavailable(x, _), _) => if x == r then Some(Interrupted) else None
    case _ => None
  }

  function JobSaid(b: Board, c: Change, r: Id): Option<(Option<Id>, Option<Id>)> {
    match c
    case Acknowledged(Dispatched(op, job, conversation)) => if Dispatches(b, op, r) then Some((Some(job), Some(conversation))) else None
    case _ => None
  }

  function ReportSaid(c: Change, r: Id): Option<Option<FileRef>> {
    match c
    case Provider(Reported(x, _, report), _) => if x == r then Some(Some(report)) else None
    case Provider(Settled(x, _, _, report), _) => if x == r then Some(Some(report)) else None
    case _ => None
  }

  function RunReasonSaid(b: Board, c: Change, r: Id): Option<Option<Reason>> {
    match c
    case Acknowledged(Rejected(op, why)) => if Dispatches(b, op, r) then Some(Some(RejectionReason(why))) else None
    case Provider(Unavailable(x, _), _) => if x == r then Some(Some(WorkerUnavailable)) else None
    case _ => None
  }

  predicate SameClaims(p: Progress, q: Progress) {
    p.summary == q.summary && p.next == q.next && p.artifacts == q.artifacts && p.blocker == q.blocker
  }

  /** A newer checkpoint is shown with its newest source; one that claims nothing new keeps the sequence it was first seen at. */
  predicate ProgressFollows(b: Board, c: Change, r: Id, before: Option<Progress>, after: Option<Progress>) {
    if Newer(b, c, r) then
      && after.Some? && SameClaims(after.value, c.event.progress) && after.value.source == c.event.progress.source
      && after.value.sequence ==
         if before.Some? && SameClaims(before.value, c.event.progress) then before.value.sequence else c.event.progress.sequence
    else after == before
  }

  predicate RunFollows(b: Board, c: Change, r: Id, after: Run)
    requires r in b.runs || StartsRun(c, r)
  {
    var before := RunBefore(b, c, r);
    && after.taskId == before.taskId
    && after.status == Or(RunStatusSaid(b, c, r), before.status)
    && (after.jobId, after.conversationId) == Or(JobSaid(b, c, r), (before.jobId, before.conversationId))
    && after.report == Or(ReportSaid(c, r), before.report)
    && after.reason == Or(RunReasonSaid(b, c, r), before.reason)
    && after.observedSequence == (if Newer(b, c, r) then c.event.progress.sequence else before.observedSequence)
    && ProgressFollows(b, c, r, before.progress, after.progress)
  }

  predicate RunAt(b: Board, c: Change, r: Id, after: map<Id, Run>) {
    && (r in after <==> r in b.runs || StartsRun(c, r))
    && (r in after ==> RunFollows(b, c, r, after[r]))
  }

  lemma DecideKeepsRuns(b: Board, action: Action)
    requires Decide(b, action).Ok?
    ensures Decide(b, action).value.runs == b.runs
  {
  }

  lemma DispatchRuns(b: Board, op: Id, t: Id, anew: bool, prompt: string, r: Id)
    requires ReserveRun(b, op, t, anew, prompt).Ok?
    ensures RunAt(b, Dispatch(op, t, anew, prompt), r, ReserveRun(b, op, t, anew, prompt).value.runs)
  {
    var after := ReserveRun(b, op, t, anew, prompt).value.runs;
    assert after == b.runs[op := Run(t, RunStatus.Reserved, None, None, None, None, -1, None)];
  }

  lemma AcknowledgeRuns(b: Board, receipt: EffectReceipt, r: Id)
    requires Acknowledge(b, receipt).Ok?
    ensures RunAt(b, Acknowledged(receipt), r, Acknowledge(b, receipt).value.runs)
  {
  }

  /** A checkpoint as the Board keeps it. */
  lemma NewerKept(b: Board, x: Id, job: Id, p: Progress)
    requires SaveProgress(b, x, job, p).Ok? && b.runs[x].observedSequence < p.sequence
    ensures
      var after := SaveProgress(b, x, job, p).value.runs;
      && x in after && after == b.runs[x := after[x]] && after[x].progress.Some?
      && after[x] == b.runs[x].(status := RunStatus.Running, observedSequence := p.sequence, progress := after[x].progress)
      && SameClaims(after[x].progress.value, p) && after[x].progress.value.source == p.source
      && after[x].progress.value.sequence ==
         if b.runs[x].progress.Some? && SameClaims(b.runs[x].progress.value, p) then b.runs[x].progress.value.sequence else p.sequence
  {
  }

  lemma ProgressRuns(b: Board, x: Id, job: Id, p: Progress, wake: Option<Wake>, r: Id)
    requires SaveProgress(b, x, job, p).Ok?
    ensures RunAt(b, Provider(Progressed(x, job, p), wake), r, SaveProgress(b, x, job, p).value.runs)
  {
    if b.runs[x].observedSequence < p.sequence {
      NewerKept(b, x, job, p);
    } else {
      assert SaveProgress(b, x, job, p).value == b;
    }
  }

  lemma EventRuns(b: Board, event: Event, wake: Option<Wake>, r: Id)
    requires SaveEvent(b, event).Ok?
    ensures RunAt(b, Provider(event, wake), r, SaveEvent(b, event).value.runs)
  {
    if event.Progressed? {
      ProgressRuns(b, event.runId, event.jobId, event.progress, wake, r);
    }
  }

  /** What every run says after a change. */
  lemma TransformRuns(b: Board, c: Change, r: Id)
    requires Transform(b, c).Ok?
    ensures RunAt(b, c, r, Transform(b, c).value.runs)
  {
    match c
    case Decided(action) => DecideKeepsRuns(b, action);
    case Dispatch(op, t, anew, prompt) => DispatchRuns(b, op, t, anew, prompt, r);
    case Acknowledged(receipt) => AcknowledgeRuns(b, receipt, r);
    case Provider(event, wake) => EventRuns(b, event, wake, r);
    case _ =>
  }

  // -- Asks -----------------------------------------------------------------------------------

  predicate OpensAsk(c: Change, a: Id) {
    c.Decided? && c.action.AskOpen? && c.action.askId == a
  }

  function AskBefore(b: Board, c: Change, a: Id): Ask
    requires a in b.asks || OpensAsk(c, a)
  {
    if a in b.asks then b.asks[a]
    else
      var spec := c.action.ask;
      Ask(spec.key, spec.text, spec.artifacts, spec.blocks, spec.sources, spec.addressedTo, Open, None, None)
  }

  function AskStatusSaid(c: Change, a: Id): Option<AskStatus> {
    match c
    case Decided(AskResolve(x, how, _)) =>
      if x != a then None
      else Some(match how case AsAnswered => Answered case AsSuperseded => Superseded case AsDismissed => Dismissed)
    case Provider(Decision(x, _), _) => if x == a then Some(Replied) else None
    case _ => None
  }

  /** What was asked never changes; a member's reply and the resolution are written where they belong. */
  predicate AskFollows(b: Board, c: Change, a: Id, after: Ask)
    requires a in b.asks || OpensAsk(c, a)
  {
    var before := AskBefore(b, c, a);
    && (after.key, after.text, after.artifacts, after.blocks, after.sources, after.addressedTo)
       == (before.key, before.text, before.artifacts, before.blocks, before.sources, before.addressedTo)
    && after.status == Or(AskStatusSaid(c, a), before.status)
    && after.reply == (if c.Provider? && c.event.Decision? && c.event.askId == a then Some(c.event.reply) else before.reply)
    && after.resolution == (if c.Decided? && c.action.AskResolve? && c.action.askId == a then Some(c.action.resolution) else before.resolution)
  }

  predicate AskAt(b: Board, c: Change, a: Id, after: map<Id, Ask>) {
    && (a in after <==> a in b.asks || OpensAsk(c, a))
    && (a in after ==> AskFollows(b, c, a, after[a]))
  }

  lemma AcknowledgeAsks(b: Board, receipt: EffectReceipt)
    requires Acknowledge(b, receipt).Ok?
    ensures SameElsewhere(b, Acknowledge(b, receipt).value) && Acknowledge(b, receipt).value.asks == b.asks
  {
  }

  lemma DecideAsks(b: Board, action: Action, a: Id)
    requires Decide(b, action).Ok?
    ensures AskAt(b, Decided(action), a, Decide(b, action).value.asks)
  {
  }

  lemma EventAsks(b: Board, event: Event, wake: Option<Wake>, a: Id)
    requires SaveEvent(b, event).Ok?
    ensures AskAt(b, Provider(event, wake), a, SaveEvent(b, event).value.asks)
  {
  }

  lemma TransformAsks(b: Board, c: Change, a: Id)
    requires Transform(b, c).Ok?
    ensures AskAt(b, c, a, Transform(b, c).value.asks)
  {
    match c
    case Decided(action) => DecideAsks(b, action, a);
    case Acknowledged(receipt) => AcknowledgeAsks(b, receipt);
    case Provider(event, wake) => EventAsks(b, event, wake, a);
    case _ =>
  }

  // -- Rules and settings ------------------------------------------------------------------------

  predicate SameElsewhere(b: Board, after: Board) {
    && after.conversationId == b.conversationId && after.rules == b.rules && after.concurrencyLimit == b.concurrencyLimit
    && after.checkpoint == b.checkpoint && after.checkinMinutes == b.checkinMinutes
  }

  /** Rules and settings are what was last set. */
  predicate RestFollows(b: Board, c: Change, after: Board) {
    && after.conversationId == b.conversationId
    && (forall id :: id in after.rules ==>
          if c.Decided? && c.action.RulePut? && c.action.ruleId == id then after.rules[id] == c.action.rule
          else id in b.rules && after.rules[id] == b.rules[id])
    && (forall id :: id in b.rules && id !in after.rules ==> c.Decided? && c.action.RuleRemove? && c.action.ruleId == id)
    && (c.Decided? && c.action.RulePut? ==> c.action.ruleId in after.rules)
    && (c.Decided? && c.action.RuleRemove? ==> c.action.ruleId !in after.rules)
    && after.concurrencyLimit == (if c.Decided? && c.action.SetLimit? then c.action.limit else b.concurrencyLimit)
    && after.checkpoint == (if c.Decided? && c.action.SetCheckpoint? then c.action.checkpoint else b.checkpoint)
    && after.checkinMinutes == (if c.Decided? && c.action.SetCheckin? then c.action.minutes else b.checkinMinutes)
  }

  lemma DecideRest(b: Board, action: Action)
    requires Decide(b, action).Ok?
    ensures RestFollows(b, Decided(action), Decide(b, action).value)
  {
  }

  lemma EventRest(b: Board, event: Event)
    requires SaveEvent(b, event).Ok?
    ensures SameElsewhere(b, SaveEvent(b, event).value)
  {
  }

  lemma TransformRest(b: Board, c: Change)
    requires Transform(b, c).Ok?
    ensures RestFollows(b, c, Transform(b, c).value)
  {
    match c
    case Decided(action) => DecideRest(b, action);
    case Acknowledged(receipt) => AcknowledgeAsks(b, receipt);
    case Provider(event, _) => EventRest(b, event);
    case _ =>
  }

  // -- Which runs a Board keeps ---------------------------------------------------------------------

  /** A task's current run, the source of a pending ask, or what an effect is about. */
  predicate Mentions(b: Board, r: Id) {
    || (exists t :: t in b.tasks && b.tasks[t].currentRun == Some(r))
    || (exists a, i :: a in b.asks && (b.asks[a].status.Open? || b.asks[a].status.Replied?)
                       && 0 <= i < |b.asks[a].sources| && b.asks[a].sources[i].runId == r)
    || (exists e :: e in b.outbox && (b.outbox[e].payload.DispatchJob? || b.outbox[e].payload.ControlJob?) && b.outbox[e].payload.runId == r)
  }

  lemma RetainedIff(b: Board, r: Id)
    ensures
      var kept := RetainCurrentRuns(b);
      && (r in kept.runs <==> r in b.runs && (IsLive(b.runs[r]) || Mentions(kept, r)))
      && (r in kept.runs ==> kept.runs[r] == b.runs[r])
      && kept == b.(runs := kept.runs)
  {
    assert InUse(b, r) <==> Mentions(b, r);
  }

  predicate KeptAt(b: Board, c: Change, r: Id, after: Board) {
    && (r in after.runs ==> (r in b.runs || StartsRun(c, r)) && RunFollows(b, c, r, after.runs[r]) && (IsLive(after.runs[r]) || Mentions(after, r)))
    && (r !in after.runs && (r in b.runs || StartsRun(c, r)) ==>
          && !Mentions(after, r)
          && var status := Or(RunStatusSaid(b, c, r), RunBefore(b, c, r).status);
             !status.Reserved? && !status.Queued? && !status.Running?)
  }

  /** A committed Board keeps a run exactly while it is live or something on it names the run. */
  lemma CommittedRuns(b: Board, c: Change, r: Id)
    requires Transform(b, c).Ok?
    ensures KeptAt(b, c, r, Committed(b, Transform(b, c).value))
  {
    TransformRuns(b, c, r);
    RetainedIff(Transform(b, c).value, r);
    var kept := RetainCurrentRuns(Transform(b, c).value);
    assert Mentions(Committed(b, Transform(b, c).value), r) <==> Mentions(kept, r);
  }
}

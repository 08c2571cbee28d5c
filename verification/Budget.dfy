/** How many native writes one command or one prepared event may spend. Only the writes, the
    receipts and what decides between branches are kept; a failed step stops its caller. */
module Budget {
  import opened Values

  datatype Command = BoardQuery | ReportQuery | DispatchWork | ControlWork | Recover(known: bool) | ChangeBoard | DecideAsk | ReconcileOne

  const MAX_CLAIMS: nat := 4

  function CommandWriteBudget(command: Command): nat {
    match command
    case BoardQuery => 0
    case ReportQuery => 0
    case DispatchWork => 11
    case ControlWork => 11
    case Recover(_) => 9
    case ChangeBoard => 4
    case DecideAsk => 4
    case ReconcileOne => 4
  }

  /** The run an event is about, as the Board shows it. */
  datatype RunView = RunView(live: bool, observed: int)

  /** One committed conversation event, told apart as its handler tells it. */
  datatype Event =
    | JobStatus(terminal: bool) | JobReport | JobSettled
    | JobCheckpoint(sequence: nat, claims: nat) | MemberComment(openAsk: bool) | OtherEvent

  /** What the handler will write for the event, beside one related receipt. */
  function PolicyWrites(run: Option<RunView>, event: Event): nat {
    var live := run.Some? && run.value.live;
    match event
    case JobStatus(terminal) => if live && terminal then 5 else 0
    case JobReport => if live then 5 else 0
    case JobSettled => if live then 5 else 0
    case JobCheckpoint(sequence, claims) =>
      if live && sequence > run.value.observed then 5 + (if claims <= MAX_CLAIMS then claims else 0) else 0
    case MemberComment(openAsk) => if openAsk then 3 else 0
    case OtherEvent => 0
  }

  function PlannedWrites(run: Option<RunView>, related: bool, event: Event): nat {
    (if related then 3 else 0) + PolicyWrites(run, event)
  }

  predicate AboutJob(event: Event) {
    event.JobStatus? || event.JobReport? || event.JobSettled? || event.JobCheckpoint?
  }

  /** No plan, with the timer's write beside it, asks for more than thirteen of the session's thirty-two. */
  lemma PlanBound(run: Option<RunView>, related: bool, event: Event)
    ensures PlannedWrites(run, related, event) + 1 <= 13
    ensures !event.JobCheckpoint? ==> PlannedWrites(run, related, event) + 1 <= 9
  {
  }

  /** Runs settle and observe; they never come back to life or forget. */
  predicate Progresses(before: Option<RunView>, after: Option<RunView>) {
    after.Some? ==> before.Some? && (after.value.live ==> before.value.live) && before.value.observed <= after.value.observed
  }

  class Session {
    /** The operation under which the checkpoint at each sequence is saved: sequences are unique. */
    const opAt: nat -> Id

    var writes: nat
    var committed: set<Id>
    var run: Option<RunView>

    /** Runs shows the check-in schedule the Board asks for. */
    var scheduled: bool

    /** The last observed checkpoint was saved under its own operation. */
    ghost predicate Valid()
      reads this
    {
      run.Some? && run.value.observed >= 0 ==> opAt(run.value.observed) in committed
    }

    twostate predicate Kept()
      reads this
    {
      Valid() && old(committed) <= committed && Progresses(old(run), run)
    }

    constructor (opAt: nat -> Id, run: Option<RunView>)
      requires run.Some? ==> run.value.observed == -1
      ensures Valid() && this.opAt == opAt && this.run == run && writes == 0 && committed == {}
    {
      this.opAt, this.run, writes, committed, scheduled := opAt, run, 0, {}, false;
    }

    /** One native submission; its reply may be lost, and then the caller stops. */
    method Submit() returns (ok: bool)
      modifies this`writes
      ensures writes == old(writes) + 1
    {
      writes := writes + 1;
      ok := *;
    }

    /** Store a file unless it is there, then project its snapshot. */
    method Put() returns (ok: bool)
      modifies this`writes
      ensures old(writes) <= writes <= old(writes) + 2
      ensures ok ==> old(writes) < writes
    {
      var present: bool := *;
      if !present {
        ok := Submit();
        if !ok {
          return;
        }
      }
      ok := Submit();
    }

    /** Other sessions commit too: receipts accumulate, the run moves forward. */
    method Others()
      requires Valid()
      modifies this`committed, this`run, this`scheduled
      ensures Kept()
    {
      var more: set<Id> := *;
      var next: Option<RunView> := *;
      var shown: bool := *;
      if Progresses(run, next) && (next.Some? && next.value.observed >= 0 ==> opAt(next.value.observed) in committed + more) {
        committed, run, scheduled := committed + more, next, shown;
      }
    }

    /** One policy commit: nothing for a known or refused operation, else its history file and the compare-and-swap. */
    method Change(op: Id) returns (ok: bool, replayed: bool)
      requires Valid()
      modifies this
      ensures Kept() && old(writes) <= writes <= old(writes) + 3
      ensures op in old(committed) || (ok && replayed) ==> writes == old(writes)
      ensures ok ==> op in committed
      ensures ok && !replayed ==> op !in old(committed) && old(writes) + 2 <= writes
    {
      Others();
      if op in committed {
        return true, true;
      }
      var refused: bool := *;
      if refused {
        return false, false;
      }
      ok := Put();
      if !ok {
        return false, false;
      }
      ok := Submit();
      if !ok {
        return false, false;
      }
      committed := committed + {op};
      scheduled := *;
      Others();
      return true, false;
    }

    method CommitReceipt(op: Id) returns (ok: bool)
      requires Valid()
      modifies this
      ensures Kept() && old(writes) <= writes <= old(writes) + 3
      ensures ok ==> Child(ReceiptPhase, op) in committed
    {
      var saved, _ := Change(Child(ReceiptPhase, op));
      ok := saved;
    }

    /** Look receipts up; commit the one found. */
    method Reconcile(op: Id) returns (ok: bool)
      requires Valid()
      modifies this
      ensures Kept() && old(writes) <= writes <= old(writes) + 3
      ensures Child(ReceiptPhase, op) in old(committed) ==> ok && writes == old(writes)
    {
      if Child(ReceiptPhase, op) in committed {
        return true;
      }
      var found: bool := *;
      if !found {
        ok := *;
        return;
      }
      ok := CommitReceipt(op);
    }

    /** Claim the attempt, submit once, commit the receipt; an attempted or retired entry is only looked up. */
    method SubmitReserved(op: Id, attempt: Id) returns (ok: bool)
      requires Valid()
      modifies this
      ensures Kept() && old(writes) <= writes <= old(writes) + 7
      ensures old(writes) + 3 < writes ==> Child(AttemptPhase, attempt) in committed && Child(AttemptPhase, attempt) !in old(committed)
    {
      var reserved: bool := *;
      if !reserved {
        ok := Reconcile(op);
        return;
      }
      var claimed, replayed := Change(Child(AttemptPhase, attempt));
      if !claimed {
        return false;
      }
      if replayed {
        ok := Reconcile(op);
        return;
      }
      var answered := Submit();
      if !answered {
        return false;
      }
      ok := CommitReceipt(op);
    }

    /** Ask Runs for the timer the Board wants, unless it is there. */
    method ScheduleCheckin() returns (ok: bool)
      modifies this`writes, this`scheduled
      ensures old(writes) <= writes <= old(writes) + 1
      ensures old(scheduled) ==> writes == old(writes)
      ensures ok ==> scheduled
    {
      if scheduled {
        return true;
      }
      ok := Submit();
      if ok {
        scheduled := true;
      }
    }

    /** Save a report: its file, then the policy commit. Only a live run's report is stored. */
    method Result(op: Id) returns (ok: bool)
      requires Valid()
      modifies this
      ensures Kept() && old(writes) <= writes <= old(writes) + 5
      ensures !(old(run).Some? && old(run).value.live) ==> writes == old(writes)
      ensures ok ==> op in committed
    {
      Others();
      if op in committed {
        return true;
      }
      if run.None? || !run.value.live {
        return false;
      }
      ok := Put();
      if ok {
        var saved, _ := Change(op);
        ok := saved;
      }
    }

    /** Save a checkpoint: its raw source, each claim it makes within the limit, then the policy commit. */
    method Progress(sequence: nat, claims: nat) returns (ok: bool)
      requires Valid()
      modifies this
      ensures Kept() && old(writes) <= writes <= old(writes) + 5 + (if claims <= MAX_CLAIMS then claims else 0)
      ensures opAt(sequence) in old(committed) ==> writes == old(writes)
      ensures ok ==> opAt(sequence) in committed
    {
      if opAt(sequence) in committed {
        return true;
      }
      ok := Put();
      if !ok {
        return;
      }
      var i := 0;
      var going := claims <= MAX_CLAIMS;
      while going && i < claims
        invariant going ==> claims <= MAX_CLAIMS && i <= claims
        invariant old(writes) <= writes <= old(writes) + 2 + (if claims <= MAX_CLAIMS then i else 0)
        invariant claims <= MAX_CLAIMS ==> i <= claims
        invariant Valid() && committed == old(committed) && run == old(run)
        decreases claims - i, going
      {
        // a claim that cannot be read is not projected, and one that fails quarantines the rest
        var readable: bool := *;
        if readable {
          going := Submit();
        } else {
          going := false;
        }
        i := i + 1;
      }
      var saved, _ := Change(opAt(sequence));
      ok := saved;
    }

    /** The event's own handler, over the Board as it is after its related receipt. */
    method Handle(event: Event, op: Id) returns (ok: bool)
      requires Valid()
      modifies this
      ensures Kept() && old(writes) <= writes <= old(writes) + PolicyWrites(old(run), event)
      ensures ok && (event.JobReport? || event.JobSettled? || (event.JobStatus? && event.terminal)) ==> op in committed
      ensures ok && event.MemberComment? && event.openAsk ==> op in committed
    {
      match event
      case JobStatus(terminal) =>
        if terminal {
          ok := Result(op);
        } else {
          ok := true;
        }
      case JobReport => ok := Result(op);
      case JobSettled => ok := Result(op);
      case JobCheckpoint(sequence, claims) =>
        // the handler's bound is not strict: a redelivered checkpoint goes through to its own receipt
        if run.None? || !run.value.live || sequence < run.value.observed {
          return true;
        }
        ok := Progress(sequence, claims);
      case MemberComment(openAsk) =>
        if openAsk {
          var saved, _ := Change(op);
          ok := saved;
        } else {
          ok := true;
        }
      case OtherEvent => ok := true;
    }

    /** One committed event: plan on the Board first seen, reconcile the related entry, handle, set the timer. */
    method PrepareEvent(event: Event, op: Id, related: Option<Id>) returns (ok: bool)
      requires Valid() && (related.Some? ==> AboutJob(event))
      modifies this
      ensures Kept() && old(writes) <= writes <= old(writes) + PlannedWrites(old(run), related.Some?, event) + 1
      ensures ok ==> scheduled
    {
      if related.Some? {
        ok := Reconcile(related.value);
        if !ok {
          return;
        }
      }
      ghost var seen := run;
      // a refusal the handler names is quarantined and the turn goes on
      var _ := Handle(event, op);
      LaterPlansLess(old(run), seen, event);
      ok := ScheduleCheckin();
    }

    method Run(command: Command, op: Id, attempt: Id, related: Option<Id>) returns (ok: bool)
      requires Valid()
      modifies this
      ensures Kept() && old(writes) <= writes
      ensures command.Recover? && command.known && ok ==> scheduled
      ensures CommandWriteBudget(command) == 0 ==> writes == old(writes)
      ensures ok && (command.ChangeBoard? || command.DecideAsk? || command.DispatchWork? || command.ControlWork?) ==> op in committed
      ensures CommandWriteBudget(command) > 0 ==>
          writes + (if command.Recover? && command.known then 0 else 1) <= old(writes) + CommandWriteBudget(command)
    {
      match command
      case BoardQuery => ok := true;
      case ReportQuery => ok := true;
      case DispatchWork =>
        var reserved, _ := Change(op);
        if !reserved {
          return false;
        }
        ok := SubmitReserved(op, attempt);
      case ControlWork =>
        var reserved, _ := Change(op);
        if !reserved {
          return false;
        }
        ok := SubmitReserved(op, attempt);
      case Recover(known) =>
        if known {
          // the job's own history is replayed as an event, with its own timer call
          var terminal: bool := *;
          PlanBound(run, related.Some?, JobStatus(terminal));
          ok := PrepareEvent(JobStatus(terminal), op, related);
        } else {
          var saved, _ := Change(op);
          ok := saved;
        }
      case ChangeBoard =>
        var saved, _ := Change(op);
        ok := saved;
      case DecideAsk =>
        var saved, _ := Change(op);
        ok := saved;
      case ReconcileOne => ok := Reconcile(op);
    }

    /** A command and the timer after it stay within the command's budget; a recovery's second timer call writes nothing. */
    method Execute(command: Command, op: Id, attempt: Id, related: Option<Id>) returns (ok: bool)
      requires Valid()
      modifies this
      ensures Kept() && old(writes) <= writes <= old(writes) + CommandWriteBudget(command)
      ensures ok && CommandWriteBudget(command) > 0 ==> scheduled
      ensures ok && (command.ChangeBoard? || command.DecideAsk? || command.DispatchWork? || command.ControlWork?) ==> op in committed
    {
      ok := Run(command, op, attempt, related);
      if CommandWriteBudget(command) == 0 {
        return;
      }
      // a refused command still sets the timer; a recovery that failed underway does not reach it
      if !ok && command.Recover? && command.known {
        return;
      }
      var timed := ScheduleCheckin();
      ok := ok && timed;
    }
  }

  /** Whatever happened to the run meanwhile, its handler writes no more than was planned when it was first seen,
      unless it is a redelivery, which its own receipt answers. */
  lemma LaterPlansLess(before: Option<RunView>, after: Option<RunView>, event: Event)
    requires Progresses(before, after)
    ensures PolicyWrites(after, event) <= PolicyWrites(before, event)
  {
  }
}

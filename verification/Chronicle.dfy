/** Every revision of every run, read as a record of what was decided, dispatched and reported. */
module Chronicle {
  import opened Values
  import opened Boards
  import opened Policy
  import opened Invariant
  import opened Store
  import opened Service
  import opened AtMostOnce
  import opened Executions
  import opened Refinement
  import opened Ledger
  import opened Guards
  import opened Lifecycles
  import opened RunLifecycles
  import opened Published

  /** Every record says what the change said about it, or what it said before. */
  ghost predicate Follows(b: Board, c: Change, after: Board) {
    && after.revision == b.revision + 1 && RestFollows(b, c, after)
    && (forall t :: TaskFollows(b, c, t, after.tasks))
    && (forall r :: KeptAt(b, c, r, after))
    && (forall a :: AskAt(b, c, a, after.asks))
  }

  lemma KeptUnderHead(b: Board, c: Change, r: Id, next: Board, after: Board)
    requires KeptAt(b, c, r, next) && after == next.(history := after.history)
    ensures KeptAt(b, c, r, after)
  {
    assert Mentions(after, r) <==> Mentions(next, r);
  }

  lemma RestUnderHead(b: Board, c: Change, mid: Board, after: Board)
    requires RestFollows(b, c, mid) && after == Committed(b, mid).(history := after.history)
    ensures RestFollows(b, c, after)
  {
  }

  lemma TransformFollows(b: Board, c: Change, after: Board)
    requires Transform(b, c).Ok? && after == Committed(b, Transform(b, c).value).(history := after.history)
    ensures Follows(b, c, after)
  {
    var mid := Transform(b, c).value;
    TransformRest(b, c);
    RestUnderHead(b, c, mid, after);
    forall t
      ensures TaskFollows(b, c, t, after.tasks)
    {
      TransformTasks(b, c, t);
    }
    forall r
      ensures KeptAt(b, c, r, after)
    {
      CommittedRuns(b, c, r);
      KeptUnderHead(b, c, r, Committed(b, mid), after);
    }
    forall a
      ensures AskAt(b, c, a, after.asks)
    {
      TransformAsks(b, c, a);
    }
  }

  lemma AnswersFollow(b: Board, c: Change, after: Board)
    requires Answers(b, c, after)
    ensures Follows(b, c, after)
  {
    TransformFollows(b, c, after);
  }

  ghost function Following(): (Board, Change, Board) -> bool {
    (before, c, after) => Follows(before, c, after)
  }

  lemma LogFollows(conversation: Id, log: Log)
    requires Honoured(conversation, log)
    ensures Chained(conversation, log, Following())
  {
    forall b, c, a | Answering()(b, c, a)
      ensures Following()(b, c, a)
    {
      AnswersFollow(b, c, a);
    }
    ChainedImplies(conversation, log, Answering(), Following());
  }

  /** On every run, every revision says what its change said, and otherwise what the revision before it said. */
  lemma EveryRevisionFollows(ws: seq<World>, i: nat, k: nat)
    requires Execution(ws) && i < |ws| && k < |ws[i].log|
    ensures Follows(Current(ws[i].conversation, ws[i].log[..k]), ws[i].log[k].change, ws[i].log[k].board)
  {
    EveryLogHonoured(ws, i);
    LogFollows(ws[i].conversation, ws[i].log);
    ChainedAt(ws[i].conversation, ws[i].log, Following(), k);
  }

  // -- Every change was permitted ------------------------------------------------------------------

  lemma CurrentAt(conversation: Id, log: Log, k: nat)
    requires k <= |log|
    ensures Current(conversation, log[..k]) == if k == 0 then EmptyBoard(conversation) else log[k - 1].board
  {
  }

  lemma ValidAt(conversation: Id, log: Log, k: nat)
    requires ValidId(conversation) && AllPostable(conversation, log) && k <= |log|
    ensures Valid(Current(conversation, log[..k]))
  {
    CurrentAt(conversation, log, k);
    if k == 0 {
      EmptyBoardValid(conversation);
    } else {
      PostableAt(conversation, log, k - 1);
    }
  }

  lemma CoupledAt(conversation: Id, files: Files, log: Log, k: nat)
    requires Tracked(conversation, files, log) && k <= |log|
    ensures Inv(Current(conversation, log[..k]))
  {
    TrackedPrefix(conversation, files, log, k);
    TrackedInv(conversation, files, log[..k]);
  }

  lemma ConversationValid(ws: seq<World>, i: nat)
    requires Execution(ws) && i < |ws|
    ensures ValidId(ws[i].conversation)
  {
    var valid := (w: World) => ValidId(w.conversation);
    forall k: nat | k + 1 < |ws| && valid(ws[k])
      ensures valid(ws[k + 1])
    {
      assert StepAt(ws, k);
      var pid :| StepBy(ws[k], ws[k + 1], pid);
      StepKeepsConversation(ws[k], ws[k + 1], pid);
    }
    InductAlong(ws, valid, i);
    assert valid(ws[i]);
  }

  /** Every revision ever committed is valid and keeps the coupling. */
  lemma EveryRevisionSound(ws: seq<World>, i: nat, k: nat)
    requires Execution(ws) && i < |ws| && k <= |ws[i].log|
    ensures Valid(Current(ws[i].conversation, ws[i].log[..k])) && Inv(Current(ws[i].conversation, ws[i].log[..k]))
  {
    RunSafe(ws, i);
    EveryRevisionPostable(ws, i);
    ConversationValid(ws, i);
    ValidAt(ws[i].conversation, ws[i].log, k);
    CoupledAt(ws[i].conversation, ws[i].files, ws[i].log, k);
  }

  lemma AnswersPermitted(b: Board, c: Change, after: Board)
    requires Valid(b) && Inv(b) && Answers(b, c, after)
    ensures May(b, c)
  {
    AnsweredIff(b, c);
  }

  /** On every run, every committed change was one the Board permitted: no dispatch starts a task that waits for a
      dependency or a pending decision, no decision touches a task while its worker runs, no event speaks for another job. */
  lemma EveryChangePermitted(ws: seq<World>, i: nat, k: nat)
    requires Execution(ws) && i < |ws| && k < |ws[i].log|
    ensures May(Current(ws[i].conversation, ws[i].log[..k]), ws[i].log[k].change)
  {
    EveryRevisionSound(ws, i, k);
    EveryLogHonoured(ws, i);
    HonouredAt(ws[i].conversation, ws[i].log, k);
    AnswersPermitted(Current(ws[i].conversation, ws[i].log[..k]), ws[i].log[k].change, ws[i].log[k].board);
  }
}

/** What the protocol commits is what the pages show: every revision of every run reads back. */
module Published {
  import opened Values
  import opened Boards
  import opened Policy
  import opened Store
  import opened Service
  import opened AtMostOnce
  import opened Executions
  import opened Refinement
  import opened Ledger
  import opened Pages
  import opened Collection
  import opened BoardPages
  import opened Snapshots

  lemma DecideKeepsConversation(b: Board, action: Action)
    requires Decide(b, action).Ok?
    ensures Decide(b, action).value.conversationId == b.conversationId
  {
  }

  lemma AcknowledgeKeepsConversation(b: Board, receipt: EffectReceipt)
    requires Acknowledge(b, receipt).Ok?
    ensures Acknowledge(b, receipt).value.conversationId == b.conversationId
  {
  }

  lemma EventKeepsConversation(b: Board, event: Event)
    requires SaveEvent(b, event).Ok?
    ensures SaveEvent(b, event).value.conversationId == b.conversationId
  {
  }

  /** No change moves a Board to another conversation. */
  lemma KeepsConversation(b: Board, c: Policy.Change)
    requires Transform(b, c).Ok?
    ensures Transform(b, c).value.conversationId == b.conversationId
  {
    match c
    case Decided(action) => DecideKeepsConversation(b, action);
    case Acknowledged(receipt) => AcknowledgeKeepsConversation(b, receipt);
    case Provider(event, wake) => EventKeepsConversation(b, event);
    case _ =>
  }

  /** Applying a change to a Board of the conversation leaves one that the writer of pages accepts. */
  lemma AppliedPostable(p: Service.Pages, p': Service.Pages, op: Id, intent: Intent, c: Policy.Change, next: Board)
    requires AppliesAtomically(p, p', op, intent, c, next) && ValidRef(p'.board.history.value)
    ensures Postable(p.board.conversationId, p'.board)
  {
    KeepsConversation(p.board, c);
    HeadStaysValid(next, p'.board.history.value);
  }

  /** Every revision committed so far could be posted. */
  ghost predicate AllPostable(conversation: Id, log: Log) {
    log == [] || (AllPostable(conversation, Init(log)) && Postable(conversation, Last(log).board))
  }

  lemma {:induction false} PostableAt(conversation: Id, log: Log, k: nat)
    requires AllPostable(conversation, log) && k < |log|
    ensures Postable(conversation, log[k].board)
  {
    if k < |log| - 1 {
      PostableAt(conversation, Init(log), k);
      assert Init(log)[k] == log[k];
    } else {
      assert log[k] == Last(log);
    }
  }

  ghost predicate Publishes(w: Service.World) {
    w.pages.board.conversationId == w.conversation && AllPostable(w.conversation, w.log)
  }

  lemma CommitPublishes(w: Service.World, w': Service.World, pid: nat)
    requires Safe(w) && AllHonest(w) && Publishes(w) && pid in w.callers && CommitStep(w, w', pid)
    ensures Publishes(w')
  {
    var next := CommitRefines(w, w', pid);
    var request := w.callers[pid].request;
    AppliedPostable(w.pages, w'.pages, request.operationId, request.intent, request.change, next);
    CommitLogs(w, w', pid);
  }

  lemma StepPublishes(w: Service.World, w': Service.World, pid: nat)
    requires Safe(w) && AllHonest(w) && Publishes(w) && StepBy(w, w', pid)
    ensures Publishes(w')
  {
    if pid in w.callers && CommitStep(w, w', pid) {
      CommitPublishes(w, w', pid);
    } else {
      OtherStepsKeepPages(w, w', pid);
      StepKeepsConversation(w, w', pid);
    }
  }

  lemma NextPublishes(ws: seq<Service.World>, i: nat)
    requires Execution(ws) && i + 1 < |ws| && Publishes(ws[i])
    ensures Publishes(ws[i + 1])
  {
    RunSafe(ws, i);
    ExecutionHonest(ws, i);
    assert StepAt(ws, i);
    var pid :| StepBy(ws[i], ws[i + 1], pid);
    StepPublishes(ws[i], ws[i + 1], pid);
  }

  /** Every revision any run commits is a Board the writer of pages accepts. */
  lemma EveryRevisionPostable(ws: seq<Service.World>, i: nat)
    requires Execution(ws) && i < |ws|
    ensures AllPostable(ws[i].conversation, ws[i].log)
  {
    var publishes := (w: Service.World) => Publishes(w);
    forall k: nat | k + 1 < |ws| && publishes(ws[k])
      ensures publishes(ws[k + 1])
    {
      NextPublishes(ws, k);
    }
    InductAlong(ws, publishes, i);
    assert publishes(ws[i]);
  }

  // -- Reading a run ---------------------------------------------------------------------------

  /** The first `n` revisions, each with the order its arrays were in. */
  function PostingsOf(log: Log, orders: seq<Order>, n: nat): seq<Posting>
    requires n <= |log| == |orders|
  {
    seq(n, k requires 0 <= k < n => Posting(log[k].board, orders[k]))
  }

  lemma PostingsPosted(conversation: Id, log: Log, orders: seq<Order>, n: nat)
    requires AllPostable(conversation, log) && n <= |log| == |orders|
    requires forall k :: 0 <= k < |orders| ==> Arranged(log[k].board, orders[k])
    ensures AllPosted(conversation, PostingsOf(log, orders, n))
  {
    var postings := PostingsOf(log, orders, n);
    forall k | 0 <= k < n
      ensures Posted(conversation, postings[k])
    {
      PostableAt(conversation, log, k);
    }
  }

  /** What the collection's reader finds at a server is exactly this Board. */
  ghost predicate ReadsExactly(codec: Codec, dc: DocCodec, fs: Formats, conversation: Id, server: Server, b: Board) {
    var read := ReadAll(codec, dc, server);
    read.Some? && RebuildsOnly(fs, conversation, read.value, b)
  }

  lemma LogReadsBack(conversation: Id, log: Log, codec: Codec, dc: DocCodec, fs: Formats, orders: seq<Order>, n: nat, server: Server)
    requires AllPostable(conversation, log) && n < |log| == |orders|
    requires forall k :: 0 <= k < |orders| ==> Arranged(log[k].board, orders[k])
    requires Notation(codec, dc, fs) && ServerAfter(codec, dc, DraftsOf(fs, PostingsOf(log, orders, n + 1))) == Some(server)
    ensures ReadsExactly(codec, dc, fs, conversation, server, log[n].board)
  {
    assert PostingsOf(log, orders, n + 1)[n].board == log[n].board;
    PostingsPosted(conversation, log, orders, n + 1);
    LifeReadsLast(codec, dc, fs, conversation, PostingsOf(log, orders, n + 1), server);
  }

  /** Whatever a run commits, the collection at any of its revisions reads back as exactly that revision's Board. */
  lemma EveryRevisionReadsBack(ws: seq<Service.World>, i: nat, codec: Codec, dc: DocCodec, fs: Formats, orders: seq<Order>, n: nat, server: Server)
    requires Execution(ws) && i < |ws| && n < |ws[i].log| == |orders|
    requires forall k :: 0 <= k < |orders| ==> Arranged(ws[i].log[k].board, orders[k])
    requires Notation(codec, dc, fs) && ServerAfter(codec, dc, DraftsOf(fs, PostingsOf(ws[i].log, orders, n + 1))) == Some(server)
    ensures ReadsExactly(codec, dc, fs, ws[i].conversation, server, ws[i].log[n].board)
  {
    EveryRevisionPostable(ws, i);
    LogReadsBack(ws[i].conversation, ws[i].log, codec, dc, fs, orders, n, server);
  }
}

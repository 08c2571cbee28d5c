# ducktape: verified core

A Dafny model of three parts of ducktape, with proofs about whole runs of them.

**The Chief coordination engine** (`agents/chief`). `Values`, `Boards` and `Policy` are the Board, its
validation and every policy transition as functions that answer or refuse. `Store` is the log of committed
changes with its pinned history records and retained file roots. `Service` is the system: any number of
callers, each one step of the store and effect protocol at a time, over Pages with receipts, immutable Files and
an effect endpoint. A step may lose its reply and a caller may crash at any point, so a run is any interleaving.
`Repeats`, `Invariant`, `Unwedged`, `Guards`, `Lifecycles` and `RunLifecycles` prove what one change does and when it is
answered; `AtMostOnce`, `Executions`, `Refinement`, `Ledger`, `Expected`, `Submissions`, `Receipts`, `History`, `Completion`,
`Reservations`, `Promises`, `Chronicle` and `Outcomes` prove what holds of every run.
`Pointers`, `Graph`, `Merge` and `Contraction` treat merge chains, origin lines and dependency cycles; the cycle
check is an imperative class over visiting and visited sets, as in the source. `Chunks`, `Pages`, `Collection`,
`Listing`, `Snapshots` and `BoardPages` are the storage codec, the diff, and the reader that queries a
collection piece by piece while others commit; `Readers` is the converse of its round trip; `Published` joins the two: what a run commits is what a reader finds.
`Budget` counts native writes.

**The view seats** (`app/src/module_view.rs`). `Seats` is a state machine with one step per lock section:
the connect that holds the registry and reaches seats one by one, mounts, boots, registry listings, tastes, block
reloads, each phase of a load, its install, and the redraws of a seated view. `SeatSafety` is its invariant and
`SeatRuns` and `SeatInstalls` the results. `ViewCode` is the compiled-code cache and `Chords` the table of chord claims.

**The call's audio transformers** (`app/src/call.rs`). `Resampling` and `Framing`, with `real` for `f64`.

Conventions and assumptions:

- Board collections are maps by id, so equality is equality up to the order of each array. `KeysUnique` and the
  map keys stand for the duplicate checks.
- An id is a chosen name, a fresh uuid, or derived from another id; the constructors make derivation injective and
  keep derived ids apart from chosen ones. Fingerprints and storage ids are likewise injective: an intent stands for
  its own fingerprint, a record id or row key for what it hashes.
- JSON and base64 decoders invert their encoders, an entity's printed form carries its id, and ids and record ids are
  written injectively: `Lawful`, `Exact`, `AllExact` and `Notation` say so where it is used. The writer computes every
  storage name from the printed form and checks only that it is there and unique; that the reader then accepts it is proved.
- Clocks, randomness and the network are nondeterministic steps. A refusal is `Refused(code)`; a thrown error of the
  storage reader is `None`.
- A view's identity is the load that made it; its `state` is what a snapshot of it would carry. The source documents
  a fresh load as one that lands where no view is seated. That does not hold of the desktop's own views, and the model
  follows the code: `SeatRuns.DesktopTasteDropsState` shows the failure and `SeatRuns.FreshLandsOnReady` when exactly it happens.
- The resampler is built for a positive rate; at rate 0 the source's loop would not end.

## Model

| member | source | states |
|---|---|---|
| Pointers.FollowIff | agents/chief/domain.ts:63-67 | the chase with a `seen` list answers an id exactly when the pointers lead there in finitely many hops; otherwise the chain loops or dangles |
| Graph.CanonicalSurvives | agents/chief/domain.ts:63-67 | a canonical task is itself unmerged, and an unmerged task is its own canonical task |
| Graph.LineRootFollows | agents/chief/domain.ts:101-105 | the recursive line root is the end of the chain of canonical origins, and is refused exactly when that chain does not end |
| Graph.SettleOne | agents/chief/domain.ts:117-124 | a task whose canonical dependencies are all settled lies on no dependency cycle |
| Graph.ClosingPath | agents/chief/domain.ts:117-118 | meeting a task that is still being visited exhibits a dependency cycle |
| Graph.GraphCheck.Visit | agents/chief/domain.ts:114-124 | a visit that succeeds settles the task without changing what was settled; a visit that fails has found a cycle or an unresolvable dependency |
| Graph.CheckGraph | agents/chief/domain.ts:106-126 | accepts if and only if the canonical dependency graph of unmerged tasks is acyclic, its dependencies resolve and every origin line reaches a root |
| Merge.CanonicalContracts | agents/chief/domain.ts:232-253 | after a merge every id's canonical task is the contraction of its old one |
| Merge.EdgesContract | agents/chief/domain.ts:237-260 | dependency edges after a merge are exactly the image of the old edges without self-loops |
| Merge.NewOrigin | agents/chief/domain.ts:241-251 | the survivor keeps an origin outside the pair if either task had one; every other task keeps the contraction of its own |
| Merge.RootsContract | agents/chief/domain.ts:241-260 | a line through the pair ends at the contraction of the surviving side's root; every other line keeps its root |
| Merge.OneLineKeepsItsRoot | agents/chief/domain.ts:238-251 | merging two tasks of one line gives every task of it the contraction of its old root |
| Contraction.MergeMakesGraph | agents/chief/domain.ts:232-261 | the task list a merge writes has exactly the contracted graph |
| Contraction.MergeContractsEdges | agents/chief/domain.ts:232-261 | on Boards: canonical ids and dependency edges of an accepted merge are those of the contraction, both directions |
| Contraction.MergeKeepsOrigins | agents/chief/domain.ts:238-251 | on Boards: the survivor of an accepted merge has no origin only if neither task had one outside the pair |
| Contraction.MergeKeepsLines | agents/chief/domain.ts:238-261 | on Boards: if both tasks were in one line, each surviving task of it has root f(old root) |
| Contraction.MergeKeepsEvidence | agents/chief/domain.ts:252-260 | the survivor carries exactly the evidence of both tasks, once each; no other evidence changes |
| Policy.DedupInOrder | agents/chief/domain.ts:25-25 | deduplicated values stand in the order in which they first occur; `Dedup` itself promises each value once and no other |
| Policy.RewiredInOrder | agents/chief/domain.ts:237-237 | rewired dependencies are the redirected ids that do not stand for their owner, each once, in the order they first occur |
| Invariant.DecidedEvolves | agents/chief/domain.ts:198-310 | no decision starts, settles or revives a run, or touches the outbox; an acceptance changes only by being earned now or dropped |
| Invariant.StartRunEvolves | agents/chief/domain.ts:390-402 | reserving a run adds one reserved run and the one dispatch entry that names it |
| Invariant.ReserveControlEvolves | agents/chief/domain.ts:403-409 | a control entry names a run that is present |
| Invariant.MarkAttemptedEvolves | agents/chief/domain.ts:410-414 | an attempt marks a reserved entry once and leaves every run as it was |
| Invariant.DispatchReceiptEvolves | agents/chief/domain.ts:415-425 | a dispatch receipt finds its run reserved, sets its job once and removes the entry; no settled run revives |
| Invariant.RejectedReceiptEvolves | agents/chief/domain.ts:426-433 | a refused dispatch settles its reserved run and removes the entry |
| Invariant.OtherReceiptEvolves | agents/chief/domain.ts:434-465 | control and wake receipts keep runs moving forward and the reserved-iff-in-outbox coupling |
| Invariant.SaveProgressEvolves | agents/chief/domain.ts:471-481 | progress moves its run forward and nothing else |
| Invariant.SaveResultEvolves | agents/chief/domain.ts:487-494 | a result settles a live run once and puts its task under review only with a completed, reported run |
| Invariant.MarkUnavailableEvolves | agents/chief/domain.ts:518-524 | losing a job settles a live run once |
| Invariant.RetainEvolves | agents/chief/domain.ts:504-517 | archiving runs keeps every run an outbox entry or review still needs |
| Invariant.TransformEvolves | agents/chief/service.ts:39-228 | every transform the service passes keeps the coupling and moves runs, outbox and acceptances only as allowed |
| Invariant.CommitEvolves | agents/chief/store.ts:154-159 | every commit keeps: a run is reserved iff its dispatch entry is in the outbox, every effect entry names a present run, a job is set at most once |
| Unwedged.ProgressStaysValid | agents/chief/domain.ts:471-481 | progress that passes its guards leaves a valid Board |
| Unwedged.ResultStaysValid | agents/chief/domain.ts:487-494 | a result that passes its guards leaves a valid Board |
| Unwedged.RetainStaysValid | agents/chief/domain.ts:504-517 | archiving unused runs keeps a Board valid |
| Unwedged.EventNeverWedged | agents/chief/domain.ts:466-524 | a worker event whose own guards pass always commits below the last revision; with a wake, also below the outbox limit |
| Unwedged.DecisionCommitsIff | agents/chief/domain.ts:495-501 | a member's decision whose own guards pass commits if and only if its message and decision ids are valid and its reply is within 4000 characters, which policy leaves to validation |
| Unwedged.ReceiptNeverWedged | agents/chief/domain.ts:415-465 | an effect receipt whose own guards pass always commits below the last revision, also with a full outbox |
| Guards.AnsweredIff | agents/chief/domain.ts:198-524 | on every Board the engine can reach, a change is answered if and only if the Board permits it, told by statuses: no decision about a running or merged task, no dispatch past an open dependency, a pending decision or the limit, no event from another job, no reply but an addressed member's |
| Lifecycles.TransformTasks | agents/chief/domain.ts:198-524 | after any change every task says what the change said about it and otherwise what it said before, field by field: status, reason, run, acceptance, conversation, brief, access, evidence |
| RunLifecycles.TransformRuns | agents/chief/domain.ts:390-524 | the same for every run: status, job, conversation, report, reason, observed sequence and shown checkpoint |
| RunLifecycles.CommittedRuns | agents/chief/domain.ts:504-517 | a committed Board keeps a run if and only if it is live or a task, a pending ask or an effect on that Board names it |
| RunLifecycles.TransformAsks | agents/chief/domain.ts:270-276 | what was asked never changes; reply, status and resolution are what was last said |
| RunLifecycles.TransformRest | agents/chief/domain.ts:277-287 | rules and settings are what was last set, and no change moves a Board to another conversation |
| Repeats.RetainedOnce | agents/chief/domain.ts:504-516 | archiving is idempotent: what it keeps is still in use |
| Repeats.DispatchBounded | agents/chief/domain.ts:390-402 | a dispatch stays within the concurrency limit and its task takes no second worker |
| Repeats.ProgressConverges | agents/chief/domain.ts:471-481 | two checkpoints delivered in either order leave the same observed sequence and show the same progress |
| Store.PatchUndoesDiff | agents/chief/store.ts:22-30 | applying the difference of two id-keyed collections to the first gives the second |
| Store.DeltaRebuilds | agents/chief/store.ts:22-31 | a history delta applied to the view before gives the view after |
| Store.OperationsDistinct | agents/chief/store.ts:148-154 | no operation id is committed twice in one history |
| Store.WalkFindsRecords | agents/chief/store.ts:160-174 | following `previous` from the Board's history head through Files finds exactly the committed records |
| Store.RecordsInOrder | agents/chief/store.ts:160-163 | the k-th record found carries revision k and the operation that committed it |
| Store.ReplayRebuilds | agents/chief/store.ts:154-163 | folding the pinned deltas from the empty Board rebuilds the current Board |
| Store.EvidenceNeverDangles | agents/chief/store.ts:164-174 | every file the last Board of a history or its last record refers to was sent as a root, although each commit sends only new roots |
| Store.NothingEverDangles | agents/chief/store.ts:164-174 | for every Board and record of a history, every file it refers to was sent as a root by that commit or an earlier one |
| History.AttemptedAtMostOnce | agents/chief/domain.ts:410-414 | in every history each operation has at most one committed attempt |
| History.RunsOnlyForward | agents/chief/domain.ts:390-524 | between any two revisions a run keeps its task, sets job and conversation at most once, and never changes once settled |
| History.RetiredNeverReturns | agents/chief/domain.ts:504-517 | a run id that has left the Board never returns to it |
| History.RunWasDispatched | agents/chief/domain.ts:390-402 | every run on a Board was dispatched under its own id for its own task |
| History.AcceptanceIsEarned | agents/chief/domain.ts:262-269 | every acceptance names the revision that committed it and a run that had completed, with a report, for that same task, through merges, reopens and edits |
| History.AcceptedRunWasDispatched | agents/chief/domain.ts:262-269 | the accepted run was dispatched for the accepted task at an earlier revision |
| AtMostOnce.CommitStepKeeps | agents/chief/store.ts:142-181 | a compare-and-swap, won or lost, answered or not, keeps every caller's claim and every submission justified |
| AtMostOnce.PrepareStepKeeps | agents/chief/service.ts:68-80 | drawing a fresh attempt id keeps contenders apart |
| AtMostOnce.SubmitStepKeeps | agents/chief/service.ts:81-90 | a submission is made only by the caller whose attempt was committed, and only once |
| AtMostOnce.DuplicateStepKeeps | agents/chief/store.ts:148-153 | a replayed operation id is answered without changing Pages |
| AtMostOnce.StepKeeps | agents/chief/service.ts:39-91 | every step of the protocol keeps the at-most-once invariant |
| Executions.SubmittedAtMostOnce | agents/chief/service.ts:68-91 | on every run no operation is submitted twice, and what was submitted is the one attempt committed for it |
| Executions.OnlyInspectsReceipts | agents/chief/service.ts:46-91 | once attempted with no claimant about to submit, no later step of any caller submits that operation again |
| Submissions.SubmittedAsReserved | agents/chief/service.ts:68-90 | on every run, what is submitted for an operation is bound to it and carries the very payload a committed Board reserved for it |
| Submissions.SubmittedAsAsked | agents/chief/service.ts:119-161 | on every run, everything submitted is what one committed request asked for: that task's prompt and conversation, that job's control and text, or that event's wake |
| Submissions.OnlyHeldIsLookedUp | agents/chief/service.ts:46-67 | on every run, the network is asked only about operations some committed Board had in its outbox |
| Reservations.EveryChangeIsItsIntent | agents/chief/service.ts:114-227 | on every run, what was committed under an operation is what its recorded intent said: that command, that attempt, that receipt, or that input's event and the wake that says what happened to which run or ask |
| Receipts.EveryReceiptWasAnswered | agents/chief/service.ts:39-91 | on every run, every committed receipt is one the network gave when asked about that very operation |
| Refinement.CommitRefines | agents/chief/store.ts:154-181 | a winning commit is one atomic policy step on the Board Pages then shows |
| Refinement.OtherStepsKeepPages | agents/chief/store.ts:142-181 | every other step leaves the Board and its receipts as they were |
| Refinement.EveryBoardValid | agents/chief/domain.ts:147-194 | every Board of every run satisfies validation |
| Refinement.EveryBoardSound | agents/chief/domain.ts:390-443 | every Board of every run is valid and keeps the coupling validation does not check |
| Refinement.StoreAppliesOnce | agents/chief/store.ts:142-181 | the store refines an atomic apply-once log: each step applies one new operation or none |
| Refinement.ReceiptsBijectWithRevisions | agents/chief/store.ts:164-181 | each receipt names a revision between 1 and the current one, committed by its own operation and intent, and no two receipts name the same |
| Refinement.EveryRevisionHasReceipt | agents/chief/store.ts:164-181 | each revision up to the current one has the receipt of the operation that committed it, which makes the pairing a bijection |
| Refinement.RetryAnswersOrRefuses | agents/chief/store.ts:148-153 | an exact retry gets its original revision and no change; a reused id with another intent is refused |
| Expected.EveryCommandSawItsRevision | agents/chief/store.ts:155-155 | on every run, every committed command was applied to exactly the revision its caller named |
| Ledger.EveryLogHonoured | agents/chief/store.ts:155-159 | on every run, every revision is the policy's valid answer to its change on the revision before it |
| Chronicle.EveryRevisionFollows | agents/chief/store.ts:155-159 | on every run, every revision says of every task, run, ask, rule and setting what its change said, and otherwise what the revision before said |
| Chronicle.EveryRevisionSound | agents/chief/domain.ts:147-194 | every revision ever committed is valid and keeps the coupling |
| Chronicle.EveryChangePermitted | agents/chief/domain.ts:198-524 | on every run, every committed change was permitted by the Board it was applied to; so no committed dispatch starts a task that a pending ask blocks |
| Outcomes.EveryResultResolves | agents/chief/domain.ts:487-494 | on every run, a committed result puts its task under review if and only if it completed, still naming the run, and otherwise blocks it with that settlement's reason; the run has the settlement's status and the given report |
| Outcomes.CompletedCanBeAccepted | agents/chief/domain.ts:262-269 | acceptance can be reached: on the Board any completed result leaves, accepting its task with valid evidence and outcome is answered and leaves it done by that run |
| Outcomes.EveryStatusWasSaid | agents/chief/domain.ts:198-524 | on every run, the status of every task shown was said by one committed change, and by none since |
| Outcomes.WorkLeftAlone | agents/chief/domain.ts:198-269 | no decision touches the work of a task whose worker runs, and no change that of a merged task |
| Outcomes.FinalStays | agents/chief/domain.ts:198-276 | on every run, between any two revisions, a merged task's work and a closed ask stay as they were |
| Promises.EveryLogTracked | agents/chief/store.ts:142-181 | on every run the log is a history of policy steps whose last Board is the one Pages shows |
| Promises.HistoryRebuildsBoard | agents/chief/store.ts:160-174 | on every run, following the pinned records from the shown Board's history head for as many steps as its revision, and folding their deltas from the empty Board, rebuilds the shown Board |
| Promises.EvidenceRetained | agents/chief/store.ts:164-174 | on every run, every file that any committed Board, or any history record behind it, refers to is among the roots of a receipt Pages holds |
| Promises.EveryFileHeld | agents/chief/store.ts:32-38 | the same by field: every report, checkpoint artifact and source, piece of evidence, ask artifact and history head of any committed Board, and every one a record introduces, is among the roots of a receipt |
| Promises.BoardEvidenceRetained | agents/chief/store.ts:164-174 | on every run, so is every file the shown Board refers to |
| Promises.BoardAcceptancesEarned | agents/chief/domain.ts:262-269 | on every run, every accepted task on the shown Board earned it |
| Completion.ClaimCommits | agents/chief/domain.ts:410-414 | claiming an attempt with a well-formed effect is never refused by validation |
| Completion.ClaimRoots | agents/chief/store.ts:168-173 | a claim introduces no file but its own history record |
| Completion.ExactRetrySubmits | agents/chief/service.ts:68-91 | an exact retry of the command or input whose reservation never claimed an attempt can, step by step, reach its one submission |
| Reservations.EveryReservationHasItsRetry | agents/chief/service.ts:162-167 | on every run, every unclaimed reservation, a command's or a wake's, was made by a committed request whose exact retry is answered and goes on to finish it |
| Promises.ReservationsCanFinish | agents/chief/service.ts:68-91 | from any point of any run, every unclaimed reservation, a command's or a wake's, can still be finished by its exact retry with one submission |
| Chunks.DecodeEncode | agents/chief/network-pages.ts:135-154 | content cut into parts decodes to itself |
| Chunks.EncodeDecode | agents/chief/network-pages.ts:135-154 | rows that decode are exactly the encoding of their content: the codec is a bijection onto the rows it accepts |
| Pages.LessTotal | agents/chief/network-pages.ts:61-61 | byte order on ids is a strict total order |
| Pages.Insert | agents/chief/network-pages.ts:201-201 | keeps the list strictly ordered, adding exactly the one entity |
| Pages.Sort | agents/chief/network-pages.ts:196-201 | strictly ordered by kind and id, with the same entities |
| Pages.ContentReadBack | agents/chief/network-pages.ts:286-295 | rows holding a content's parts, at any revisions up to the header's, read back as that content |
| Pages.ManifestReadBack | agents/chief/network-pages.ts:157-181 | the writer's header and manifest pass the reader's digest, order, range and count guards; the reader accepts if and only if the names are acceptable |
| Pages.StatesHead | agents/chief/network-pages.ts:204-207 | a row set the writer produced is headed by its revision and within the size limit |
| Pages.HiddenRoundTrip | agents/chief/network-pages.ts:196-209 | of what the writer stored the reader returns the same entities in name order if there are any and their names are acceptable, and refuses otherwise |
| Collection.StampedDiff | agents/chief/network-pages.ts:237-254 | applying a change leaves exactly the new rows; an unchanged row keeps its revision, a changed one takes the new |
| Collection.CommitHolds | agents/chief/network-pages.ts:237-254 | a commit over a sound collection leaves it showing the next image whole |
| Collection.ReadReturnsShown | agents/chief/network-pages.ts:286-346 | reading a collection that shows a content returns that content, entities in name order, if and only if its names are acceptable |
| Collection.EveryReadReturnsLastCommit | agents/chief/network-pages.ts:332-379 | after every list of commits, whose names the writer computes and does not check, reading returns the last content committed if and only if its names are acceptable |
| Readers.HiddenSound | agents/chief/network-pages.ts:157-181 | the reader of protected rows accepts only what a writer stores: entities in strict name order, each in the rows its text is cut into, a manifest of exactly them, and a header that binds it to the revision by length and digest |
| Readers.ReadAllSound | agents/chief/network-pages.ts:286-346 | whatever is read is the collection: every document, naming itself, within size and no newer than the revision, beside such rows; or an untouched collection |
| BoardPages.ValidBoardAddresses | agents/chief/network-pages.ts:185-207 | a valid Board never meets the writer's naming refusals, and every name it is stored under is one the reader accepts: the writer's guards imply the reader's |
| BoardPages.RebuildsOnce | agents/chief/network-pages.ts:210-221 | a content rebuilds at most one Board, under the conversation, history and validation guards |
| BoardPages.BoardReadBack | agents/chief/network-pages.ts:185-221 | after any list of commits ending in a valid Board of the conversation, the reader accepts, passes every guard of reconstruction, and rebuilds exactly that Board |
| Published.EveryRevisionPostable | agents/chief/store.ts:154-181 | every revision any run of the coordination engine commits is valid, of its conversation and under a valid history record: what the writer of pages requires |
| Published.EveryRevisionReadsBack | agents/chief/network-pages.ts:332-379 | whatever a run commits, a reader of the collection at any revision rebuilds exactly that revision's Board |
| Listing.OrderedAscends | agents/chief/network-pages.ts:319-323 | the reader's check of neighbours makes the whole listing strictly ascending across pages |
| Listing.ListingLength | agents/chief/network-pages.ts:324-326 | an ascending listing is never longer than the collection, and as long exactly when complete |
| Listing.ServePage | agents/chief/network-pages.ts:301-305 | the server this reader talks to answers the records right after the cursor, and a cursor exactly when more remain |
| Snapshots.LifeAdvances | agents/chief/network-pages.ts:237-254 | along any list of commits the server only advances, and shows one revision exactly while nothing is committed |
| Snapshots.Client.FetchContent | agents/chief/network-pages.ts:271-295 | parts fetched one query at a time are the content, if nothing was committed meanwhile |
| Snapshots.Client.FetchHidden | agents/chief/network-pages.ts:286-300 | the protected entities fetched query by query are those of one revision, if nothing was committed meanwhile |
| Snapshots.Client.Enumerate | agents/chief/network-pages.ts:301-331 | ends with any server; returns strictly ascending records, exactly as many as the header counts; undisturbed, each record exactly once |
| Snapshots.Client.Snapshot | agents/chief/network-pages.ts:332-347 | whatever commits land between its queries, it refuses or returns the content of exactly one revision, and undisturbed it returns that of the collection |
| Snapshots.Client.ReadBoard | agents/chief/network-pages.ts:332-379 | whatever Boards others commit between its queries, it refuses or rebuilds exactly the Board committed last; it never refuses if none was committed meanwhile |
| Budget.PlanBound | agents/chief/network.ts:416-463 | no event plan with its timer exceeds 13 writes; 9 for anything but a checkpoint |
| Budget.LaterPlansLess | agents/chief/network.ts:434-445 | whatever happens to a run before its event is handled, the handler needs no more than was planned |
| Budget.Session.Put | agents/chief/network.ts:194-234 | storing a file takes at most two writes, and at least one when it succeeds |
| Budget.Session.Change | agents/chief/store.ts:142-181 | a policy commit takes at most three writes, none for a known operation, and at least two for a new one |
| Budget.Session.SubmitReserved | agents/chief/service.ts:68-91 | claim, submit and receipt take at most seven writes; nothing past the claim is written unless the claim was committed by this very call |
| Budget.Session.Progress | agents/chief/service.ts:168-197 | a checkpoint takes at most five writes and one per claim within the limit; a redelivered one takes none |
| Budget.Session.Handle | agents/chief/inputs.ts:64-115 | the handler writes no more than planned for its run, also when the checkpoint is redelivered at exactly the observed sequence |
| Budget.Session.PrepareEvent | agents/chief/network.ts:451-470 | an event's writes never exceed its plan plus one |
| Budget.Session.ScheduleCheckin | agents/chief/network.ts:399-415 | at most one write, none when Runs already shows the schedule |
| Budget.Session.Execute | agents/chief/network.ts:518-545 | no command's writes exceed its budget, counting the timer after it and the second timer call of a recovery; a command that succeeds was committed and left the timer scheduled |
| SeatSafety.StartCore | app/src/module_view.rs:1573-1581 | starting a load leaves exactly one load answering for the seat's generation |
| SeatSafety.RetireCore | app/src/module_view.rs:1168-1174 | retiring a seat keeps every load's knowledge of it true |
| SeatSafety.LoadStepCore | app/src/module_view.rs:2258-2508 | each phase of a load keeps what it knows about the seat: nothing seated, or the very view at the very state captured |
| SeatSafety.GuestCore | app/src/module_view.rs:2842-2875 | redraws keep every captured state true of the tick it was captured at |
| SeatSafety.InstallCore | app/src/module_view.rs:1618-1754 | installing keeps generations, identities and in-flight flags consistent |
| SeatSafety.LandingFillsSlot | app/src/module_view.rs:1642-1754 | a load landing on a seat no connect has yet to reach never leaves it `Loading` |
| SeatSafety.ConnectOneSafe | app/src/module_view.rs:1176-1199 | a connect leaves each seat it passes with a load of its own on the way, or a desktop view left alone |
| SeatSafety.StepSafe | app/src/module_view.rs:1138-1444 | every step of every thread keeps the invariant |
| SeatSafety.RunSafe | app/src/module_view.rs:1138-1444 | the invariant holds after every run from boot |
| SeatRuns.NeverLeftLoading | app/src/module_view.rs:1138-1205 | once no connect holds the registry, a registered seat asked for and still `Loading` has its load on the way, asked of the current connection |
| SeatRuns.LandingEndsLoading | app/src/module_view.rs:1618-1754 | when that load lands, whatever it returned, the seat is `Loading` no more |
| SeatRuns.ConnectNeverStuck | app/src/module_view.rs:1138-1205 | a connect holding the registry can always take its next step |
| SeatRuns.OnlyAdmittedLoadsLand | app/src/module_view.rs:1628-1642 | what a seat shows changes only by its own view, by retirement, or by the one load of its current generation and, for a node's view, of the current connection; its hash only by that load |
| SeatInstalls.ReplacementLandsIff | app/src/module_view.rs:1671-1729 | an admitted replacement lands if and only if the seat shows the very view it was prepared against, at its tick with nothing pending, or never valid where state need not be kept, and typed text carries over; otherwise the seat shows what it showed |
| SeatInstalls.LoadShows | app/src/module_view.rs:1654-1754 | any other admitted load shows what it brought: a view, the node's word that there is none, or a failure where nothing is shown |
| SeatInstalls.AskingStartsLoad | app/src/module_view.rs:1573-1581 | a seat's generation goes up exactly when its view is asked for, and then one new load is on its way, asked of the connection as it is |
| SeatInstalls.TastesAreSet | app/src/module_view.rs:954-972 | a seat is after the taste last set for it, until that is cleared or a connect passes |
| SeatInstalls.TastedIsNeverRemoved | app/src/module_view.rs:2300-2356 | the node's word that a module has no view takes a view off the screen only while its seat tastes nothing |
| SeatInstalls.RetiredIsGone | app/src/module_view.rs:1168-1174 | retiring takes the module off the registry and its view off the screen, and nothing else |
| SeatInstalls.RegistryMoves | app/src/module_view.rs:1138-1205 | which modules have a seat and which the node listed after any move; a connect plans to retire exactly what was listed, to seat every module of its own that has none, and to start the rest |
| SeatInstalls.DeploymentCanLand | app/src/module_view.rs:1405-1440 | a block that names a deployment a node view does not show can put it in the seat, started from exactly the state the view held, or without any where it never ticked or was never valid |
| SeatRuns.BlocksReloadOnlyNewCode | app/src/module_view.rs:1405-1440 | a block never reloads the deployment a seat already draws, and replaces a once-valid view only when it is settled and its state is preserved |
| SeatRuns.ValidViewStaysOrLeaves | app/src/module_view.rs:1549-1730 | a view that ever published a valid tree stays, or is swapped for a candidate offered its very state at its very tick with nothing pending, which started from exactly that state unless it refused it, or is removed by the node, retired, or a desktop view loaded again |
| SeatRuns.FreshLandsOnReady | app/src/module_view.rs:2266-2272 | a fresh view lands on a seated one if and only if the view is the desktop's own and the load was started while it was seated |
| SeatRuns.DesktopTasteDropsState | app/src/module_view.rs:954-971 | a run in which tasting a desktop view replaces a valid, settled view without offering its state |
| ViewCode.EvictedShortest | app/src/module_view.rs:2144-2155 | the eviction is the shortest prefix that makes room, and room is always made for code within the limit |
| ViewCode.ViewCodeCache.Get | app/src/module_view.rs:2132-2138 | finds exactly the stored hashes, moves a hit to the back, and answers what compiling its source gives |
| ViewCode.ViewCodeCache.Insert | app/src/module_view.rs:2140-2157 | evicts exactly the shortest least recently used prefix; at most 16 distinct entries and 32 MiB; the byte count never underflows |
| ViewCode.ViewCodeCache.CompileView | app/src/module_view.rs:2168-2189 | with any other loads in between, the answer is always the direct compilation |
| Chords.ClaimableIsPressable | app/src/module_view/kernel.rs:940-979 | a guest may claim exactly the chords that some press can spell, so no claim waits for ever |
| Chords.OneSpelling | app/src/module_view/kernel.rs:937-962 | no two presses share a spelling: modifiers and key can be read off a chord |
| Chords.ChordTable.Subscribe | app/src/module_view/kernel.rs:569-597 | succeeds exactly for a claimable chord, under the limit, that no guest of another module has a claim on; other guests may claim and release while it is being listed |
| Chords.ChordTable.Cancel | app/src/module_view.rs:2887-2911 | takes exactly the cancelled subscription's chords off the list and gives them back one lock at a time; whatever other guests do between, the table stays in step and the guest keeps the rest in order |
| Chords.ChordTable.Drop | app/src/module_view.rs:2224-2230 | every claim leaves with its guest, one lock at a time, whatever other guests do between |
| Chords.ClaimedWhileHeld | app/src/module_view.rs:779-842 | at every moment, also in the middle of a claim or release: a chord is claimed exactly while some guest has a claim on it, its count is their number, and all are one module's |
| Chords.ClaimedWhileSubscribed | app/src/module_view.rs:779-842 | with no claim or release under way, a chord is claimed exactly while some live subscription names it |
| Resampling.MixBetween | app/src/call.rs:254-256 | a mixed sample lies between the two it mixes |
| Resampling.ResampledCount | app/src/call.rs:243-263 | after n inputs exactly ceil(n * 48000 / rate) samples are out |
| Resampling.ResampledBetween | app/src/call.rs:251-261 | each output lies between its two neighbouring inputs |
| Resampling.ResampledAt | app/src/call.rs:243-263 | in integers: output k is the two inputs around tick k weighed by where it falls between them, over 48000, the fraction dropped; at 48 kHz the stream is passed through |
| Resampling.ResampledOnBoundary | app/src/call.rs:251-261 | a tick that falls exactly on an input boundary emits the input before it |
| Resampling.FirstTicksSame | app/src/call.rs:251-261 | what has been emitted never depends on later input |
| Resampling.TicksBefore | app/src/call.rs:253-258 | the inner loop ends and emits exactly the ticks before this input |
| Resampling.TicksOver | app/src/call.rs:251-261 | the outer loop carries phase and last sample across inputs |
| Resampling.Resampler.Push | app/src/call.rs:243-263 | however the stream is split, the outputs concatenate to one resampled stream |
| Framing.FrameAccumulator.Push | app/src/call.rs:196-204 | 960-sample frames in order, an under-960 remainder, nothing lost |
| Framing.Microphone.Capture | app/src/call.rs:189-264 | frames sent so far and the remainder are the resampled stream, over any split into callbacks |
| Framing.FramesDetermined | app/src/call.rs:196-204 | the stream alone determines the frames and the remainder |
| Framing.PlayoutRing.PushFrame | app/src/call.rs:151-162 | keeps the newest 9600 samples |
| Framing.PlayoutRing.DrainInto | app/src/call.rs:164-168 | hands out samples in order, then silence |
| Framing.AverageBetween | app/src/call.rs:213-216 | the average of a tick is within its channels' range, so the narrowing cast is exact |
| Framing.MonoLength | app/src/call.rs:207-218 | folding to mono gives one sample per whole tick, a trailing part dropped; with no channel or one, every sample is a tick |
| Framing.MonoAverages | app/src/call.rs:207-218 | every sample of the fold is the sum of its own tick's channels over their number, the fraction dropped toward zero |
| Framing.MonoBetween | app/src/call.rs:207-218 | folding to mono never leaves the range of its input |

## Left out

- Task scope and footprint paths, their glob and length grammar, and case folding of keys: keys are compared as given.
- The rule-incident pattern and the hexadecimal shapes of effect identities; of text only length, first character and control characters are checked.
- The order of arrays inside a Board and the order in which validation reports several faults: the first refusal's code is modelled, ties between independent checks are not.
- Views, census, lines-of-work summaries, prompts and worker briefs: display text and bounded projections.
- `reportArtifact` lookup and report windows: reading only.
- MCP transport, promises, abort signals, tool schemas and session set-up.
- JavaScript string lengths in UTF-16 units: lengths are counted in characters.
- The parallel fetch of rows in a snapshot: rows are fetched one query after another, with any commits between every two.
- The 128 KiB limit on a whole commit payload, the metadata limits and the receipt digest check of a commit.
- Snapshots.Client.Snapshot: an unfaithful server is covered only by what `Enumerate` promises of any server.
- Snapshots.Client.ReadBoard: likewise states what it reads only of a server that answers listings from the collection.
- Retry hold-off and replacement-wait clocks of a seat: whether a block reloads is left to the environment, within what `replacement_after_wait` admits.
- Taste discovery, notices, tab names and icons: a taste is an optional hash the environment sets or clears.
- WebAssembly execution, rendering, editor and picture state, the connection revision kept inside a view, and the wire codec.
- Decoding, trimming and lower-casing of a chord request or a pressed key: the model starts from the trimmed text.
- Rounding of `f64`, `f32_to_i16`, the speech floor, and audio device threads; sums of more than 65536 channels, where the source's 32-bit sum could wrap.
- Budget.Session.Execute: assumes unique event sequences, that Runs shows a schedule once its submission was confirmed, and that no other session changes the Board between a recovery's two timer calls.

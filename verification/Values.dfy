/** Identifiers, bounded text and policy outcomes shared by every Chief module. */
module Values {

  datatype Option<+T> = None | Some(value: T)

  /** The stable codes a policy refusal carries. */
  datatype Code =
    | MergedCycle | UnknownTask | UnknownRun | UnknownAsk | OriginCycle | DuplicateId
    | LiveWorker | CanonicalKeyExists | MergedTerminal | ReopenBeforeEdit | InvalidMergeTarget
    | ReviewEvidenceRequired | ReviewRunRequired | AskAlreadyResolved | MemberReplyRequired
    | TaskNotReady | PendingDecision | ConcurrencyLimit | RetainedConversationUnavailable
    | WorkerNotAddressable | AlreadyAttempted | WrongReceiptKind | InvalidJobReceipt
    | WrongRetainedConversation | WrongJobReceipt | UnknownOperation | ReceiptWithoutAttempt
    | InvalidProgress | WrongJob | TerminalRun | InvalidResult | ReplyAlreadySaved | WrongMember
    | WrongDecisionConversation | InvalidBoard | RevisionConflict | OperationIdReused

  /** A policy step either answers or refuses with a code. */
  datatype Outcome<+T> = Ok(value: T) | Refused(code: Code) {
    predicate IsFailure() { Refused? }

    function PropagateFailure<U>(): Outcome<U>
      requires Refused?
    {
      Refused(code)
    }

    function Extract(): T
      requires Ok?
    {
      value
    }
  }

  function Need(condition: bool, code: Code): Outcome<()> {
    if condition then Ok(()) else Refused(code)
  }

  datatype Phase = ReceiptPhase | AttemptPhase | WakePhase

  /** An id is chosen by a caller, drawn as a fresh uuid, or derived from another id. The
      constructors make derivation injective and keep derived ids apart from chosen ones. */
  datatype Id = Named(name: string) | Uuid(n: nat) | Child(phase: Phase, parent: Id)

  const MAX_SAFE: int := 9007199254740991

  predicate NameStart(c: char) {
    'a' <= c <= 'z' || 'A' <= c <= 'Z' || '0' <= c <= '9'
  }

  predicate ValidName(s: string) {
    1 <= |s| <= 200 && NameStart(s[0]) && NameTail(s)
  }

  predicate NameTail(s: string) {
    s == "" || ((NameStart(s[0]) || s[0] in {'.', '_', ':', '-'}) && NameTail(s[1..]))
  }

  predicate ValidId(id: Id) {
    id.Named? ==> ValidName(id.name)
  }

  predicate Space(c: char) {
    var n := c as int;
    9 <= n <= 13 || 0x2000 <= n <= 0x200a
    || n in {0x20, 0xa0, 0x1680, 0x2028, 0x2029, 0x202f, 0x205f, 0x3000, 0xfeff}
  }

  predicate Control(c: char) {
    var n := c as int;
    n <= 8 || n == 11 || n == 12 || 14 <= n <= 31
  }

  predicate Says(s: string) {
    s != "" && (!Space(s[0]) || Says(s[1..]))
  }

  predicate Clean(s: string) {
    s == "" || (!Control(s[0]) && Clean(s[1..]))
  }

  /** Text that says something, within `max` characters and without control characters. */
  predicate BoundedText(s: string, max: nat) {
    |s| <= max && Says(s) && Clean(s)
  }

  predicate HexDigits(s: string) {
    s == "" || (('a' <= s[0] <= 'f' || '0' <= s[0] <= '9') && HexDigits(s[1..]))
  }

  datatype FileRef = FileRef(fileId: Id, hash: string)

  predicate ValidRef(ref: FileRef) {
    ValidId(ref.fileId) && |ref.hash| == 64 && HexDigits(ref.hash)
  }

  predicate ValidRefs(refs: seq<FileRef>) {
    |refs| <= 16 && EachValidRef(refs)
  }

  predicate EachValidRef(refs: seq<FileRef>) {
    refs == [] || (ValidRef(refs[0]) && EachValidRef(refs[1..]))
  }
}

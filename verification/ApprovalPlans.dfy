/** What each lock-held region of the approval protocol durably writes, in order.
    A region reads the record and the journal once, at its start, and nobody else writes the journal
    while it runs, so its writes are a function of that reading and of the answers of the outside world. */
module ApprovalPlans {
  import opened Outcomes
  import opened ExecutionState
  import opened ExecutionJournal

  datatype Status =
    | Pending
    | Approving
    | Executing
    | Approved
    | ResumePending
    | Resuming
    | Rejected
    | Failure
    | Unconfirmed
    | Frozen

  datatype Stage = Validation | Action | ContinuationStage | UnknownOutcome | Integrity

  /** The optional fields a status change may overwrite. */
  datatype Details = Details(
    actionReceipt: Option<string>,
    stage: Option<Stage>,
    error: Option<string>,
    followUp: Option<string>,
    recheckState: Option<string>,
    recheckable: Option<bool>,
    recheckedAt: Option<string>)

  const NO_DETAILS := Details(None, None, None, None, None, None, None)

  datatype Record = Record(
    status: Status,
    authority: Authority,
    payloadReadable: bool,
    questionsOpen: bool,
    details: Details)

  function Over<T>(field: Option<T>, update: Option<T>): Option<T> {
    if update.Some? then update else field
  }

  function Overlay(d: Details, u: Details): Details {
    Details(
      Over(d.actionReceipt, u.actionReceipt), Over(d.stage, u.stage), Over(d.error, u.error),
      Over(d.followUp, u.followUp), Over(d.recheckState, u.recheckState),
      Over(d.recheckable, u.recheckable), Over(d.recheckedAt, u.recheckedAt))
  }

  datatype Write =
    | Append(event: Event)
    | Resolve(status: Status, updates: Details)
    | Restamp(updates: Details)             // keeps whatever status the record has by then
    | RestampDelivered(updates: Details)    // only while the status is approved or resume-pending
    | Spawn(identity: Identity)

  function Written(r: Record, w: Write): Record {
    match w
    case Resolve(status, updates) => r.(status := status, details := Overlay(r.details, updates))
    case Restamp(updates) => r.(details := Overlay(r.details, updates))
    case RestampDelivered(updates) =>
      if r.status == Approved || r.status == ResumePending
      then r.(details := Overlay(r.details, updates)) else r
    case _ => r
  }

  /** What the outside world answers during one region. */
  datatype Reconciled = Observed(receipt: string) | Unreachable | Unverifiable
  datatype Durable = Receipt(text: string) | NoReceipt | Raises
  datatype Answers = Answers(
    processes: map<int, string>,      // the live processes and their generations
    reconciled: Reconciled,           // re-observing a mail send
    durable: Durable,                 // reading the Office receipt
    legacy: Option<string>,           // a matching receipt left by an older version
    spawned: Identity,                // the process a launch would start
    checkedAt: string)

  /** How the sealed action ended. `retryable` and the follow-up only concern document errors. */
  datatype ActionOutcome =
    | Returned(result: string)
    | StoreBusy(error: string)
    | DocumentFailure(error: string, outputExists: bool, retryable: bool, followUp: Result<string, string>)
    | OtherFailure(error: string)

  const NEEDS_REVIEW := "needs_review"
  const NEEDS_REVIEW_RECEIPT := "{\"state\": \"needs_review\"}"

  predicate Recheckable(state: string) {
    state != SUBMITTED && state != NEEDS_REVIEW
  }

  function FreezeWrite(): Write {
    Resolve(Frozen, NO_DETAILS.(stage := Some(Integrity)))
  }

  predicate OwnerAlive(owner: Option<Owner>, processes: map<int, string>) {
    && owner.Some?
    && owner.value.identity.generation.Some?
    && owner.value.identity.pid in processes
    && processes[owner.value.identity.pid] == owner.value.identity.generation.value
  }

  // -- projecting the journal onto the record -------------------------------

  /** The receipt a success is projected with; Office receipts live outside the journal. */
  function DurableResult(s: Snapshot, durable: Durable): Durable {
    if s.category == "office_job" || s.category == "office_create" then durable
    else if s.result.Some? then Receipt(s.result.value) else NoReceipt
  }

  function ProjectWrites(receipt: string -> string, s: Snapshot, seen: Record, durable: Durable): seq<Write> {
    match s.phase
    case Succeeded =>
      (match DurableResult(s, durable)
       case Raises => []
       case NoReceipt => [FreezeWrite()]
       case Receipt(text) =>
         [Resolve(if seen.authority.continuation != Absent then ResumePending else Approved,
                  NO_DETAILS.(actionReceipt := Some(text)))])
    case Failed => [Resolve(Failure, NO_DETAILS.(stage := Some(Action), error := s.error))]
    case RetryableFailure => [Resolve(Pending, NO_DETAILS.(error := s.error))]
    case OutcomeUnknown =>
      var seed :=
        if s.category == MAIL && s.result.Some? && seen.details.recheckState.None? then
          var state := receipt(s.result.value);
          NO_DETAILS.(recheckState := Some(state), recheckable := Some(Recheckable(state)))
        else NO_DETAILS;
      [Resolve(Unconfirmed, seed.(stage := Some(UnknownOutcome)))]
    case Armed | Ready | HelperStarted | AttemptCommitted => []
  }

  /** Appends an outcome and projects the journal as it then reads; an unreadable journal ends the region. */
  function Conclude(receipt: string -> string, log: seq<Event>, e: Event, seen: Record, durable: Durable): seq<Write> {
    [Append(e)] +
    match Replay(receipt, log + [e])
    case Ok(s) => ProjectWrites(receipt, s, seen, durable)
    case Err(_) => []
  }

  /** A returned mail send succeeded only if its receipt says submitted. */
  function ResultEvent(receipt: string -> string, category: string, result: string): Event {
    if category == MAIL && receipt(result) != SUBMITTED then UnknownEvent(Some(Cut(result)))
    else SucceededEvent(Cut(result))
  }

  function ReconcileEvent(receipt: string -> string, r: Reconciled): Event {
    match r
    case Observed(text) => ResultEvent(receipt, MAIL, text)
    case Unreachable => UnknownEvent(None)
    case Unverifiable => UnknownEvent(Some(NEEDS_REVIEW_RECEIPT))
  }

  // -- claiming --------------------------------------------------------------

  function ClaimWrites(r: Record): seq<Write> {
    if r.status != Pending || r.questionsOpen || r.authority.category == "workflow" then []
    else [Resolve(Approving, NO_DETAILS)]
  }

  function RestoreWrites(r: Record): seq<Write> {
    if r.status == Approving then [Resolve(Pending, NO_DETAILS)] else []
  }

  function RejectWrites(r: Record): seq<Write> {
    if r.status == Pending then [Resolve(Rejected, NO_DETAILS)] else []
  }

  /** Seals a claimed action: a fresh journal, or one more attempt of a retryable cron. */
  function SealWrites(receipt: string -> string, file: File, r: Record): seq<Write> {
    if r.status != Approving then []
    else if r.authority.continuation == Malformed then
      [Resolve(Failure, NO_DETAILS.(stage := Some(Validation)))]
    else if !r.payloadReadable then [FreezeWrite()]
    else if Exists(file) then
      match Load(receipt, file)
      case Err(_) => []
      case Ok(s) =>
        if s.authority != r.authority || s.category != CRON || s.phase != RetryableFailure then []
        else [Append(ReadyEvent), Resolve(Executing, NO_DETAILS)]
    else
      [Append(ArmedEvent(r.authority, r.authority.category)), Append(ReadyEvent), Resolve(Executing, NO_DETAILS)]
  }

  function ResumeWrites(r: Record): seq<Write> {
    if r.status == ResumePending && r.authority.continuation == Valid then [Resolve(Resuming, NO_DETAILS)] else []
  }

  // -- recovery ----------------------------------------------------------------

  /** Spawns one helper and binds its token and identity in the journal. */
  function LaunchWrites(token: nat, identity: Identity): seq<Write> {
    [Spawn(identity), Append(StartedEvent(Owner(Secret(token), identity)))]
  }

  function RecoverLoaded(receipt: string -> string, file: File, r: Record, token: nat, a: Answers): seq<Write> {
    match Load(receipt, file)
    case Err(_) => [FreezeWrite()]
    case Ok(s) =>
      if s.authority != r.authority then [FreezeWrite()]
      else
        match s.phase
        case Armed =>
          [Append(ReadyEvent), Resolve(Executing, NO_DETAILS)] + LaunchWrites(token, a.spawned)
        case Ready => LaunchWrites(token, a.spawned)
        case HelperStarted =>
          if OwnerAlive(s.owner, a.processes) then [] else LaunchWrites(token, a.spawned)
        case AttemptCommitted =>
          if OwnerAlive(s.owner, a.processes) then []
          else if s.category == MAIL then
            Conclude(receipt, file.events, ReconcileEvent(receipt, a.reconciled), r, a.durable)
          else if IsOffice(s.category) then
            [Append(ReadyEvent)] + LaunchWrites(token, a.spawned)
          else Conclude(receipt, file.events, UnknownEvent(None), r, a.durable)
        case Succeeded | Failed | RetryableFailure | OutcomeUnknown =>
          ProjectWrites(receipt, s, r, a.durable)
  }

  const LOCAL_OWNER := Owner(Local, Identity(0, None))

  /** A record of a version without journals: an unfinished claim is undone, an unfinished execution is
      given a journal, and its outcome is whatever its old receipt proves. */
  function MigrateWrites(receipt: string -> string, r: Record, token: nat, a: Answers): seq<Write> {
    if r.status == Approving then [Resolve(Pending, NO_DETAILS)]
    else if r.status != Executing || !r.payloadReadable then []
    else
      var category := r.authority.category;
      var sealed := [ArmedEvent(r.authority, category), ReadyEvent];
      [Append(sealed[0]), Append(sealed[1])] +
      if category == "office_job" then RecoverLoaded(receipt, File(sealed, false), r, token, a)
      else
        var e := LegacyEvent(receipt, category, a);
        SettleWrites(receipt, sealed, e, r, a.durable)
        + RecoverLoaded(receipt, File(sealed + [CommittedEvent(LOCAL_OWNER), e], false), r, token, a)
  }

  /** What an old receipt proves about an execution nobody journalled. */
  function LegacyEvent(receipt: string -> string, category: string, a: Answers): Event {
    if a.legacy.Some? then ResultEvent(receipt, category, a.legacy.value) else UnknownEvent(None)
  }

  function SettleWrites(receipt: string -> string, sealed: seq<Event>, e: Event, r: Record, durable: Durable): seq<Write> {
    [Append(CommittedEvent(LOCAL_OWNER))] + Conclude(receipt, sealed + [CommittedEvent(LOCAL_OWNER)], e, r, durable)
  }

  function RecoverWrites(receipt: string -> string, file: File, r: Record, token: nat, a: Answers): seq<Write> {
    if r.status == Frozen then []
    else if !Exists(file) then MigrateWrites(receipt, r, token, a)
    else RecoverLoaded(receipt, file, r, token, a)
  }

  /** A confirmed mail: an interrupted projection is finished, and the record is stamped. */
  function StampWrites(receipt: string -> string, s: Snapshot, r: Record, a: Answers): seq<Write> {
    var at := if r.details.recheckedAt.Some? && r.details.recheckedAt.value != ""
              then r.details.recheckedAt.value else a.checkedAt;
    (if r.status == Unconfirmed then ProjectWrites(receipt, s, r, a.durable) else [])
    + [RestampDelivered(ConfirmedStamp(at))]
  }

  function ConfirmWrites(receipt: string -> string, log: seq<Event>, text: string, r: Record, a: Answers): seq<Write> {
    var e := SucceededEvent(Cut(text));
    Conclude(receipt, log, e, r, a.durable)
    + if Replay(receipt, log + [e]).Ok? then [Restamp(ConfirmedStamp(a.checkedAt))] else []
  }

  function AskWrites(receipt: string -> string, log: seq<Event>, r: Record, a: Answers): seq<Write> {
    match a.reconciled
    case Unverifiable => [Resolve(Unconfirmed, Stamp(NEEDS_REVIEW, false, a.checkedAt))]
    case Unreachable => [Resolve(Unconfirmed, Stamp("unknown", true, a.checkedAt))]
    case Observed(text) =>
      var state := receipt(text);
      if state == SUBMITTED then ConfirmWrites(receipt, log, text, r, a)
      else [Resolve(Unconfirmed, Stamp(state, Recheckable(state), a.checkedAt))]
  }

  /** Re-observes an unknown mail send. It never creates or sends mail. */
  function RecheckWrites(receipt: string -> string, file: File, r: Record, a: Answers): seq<Write> {
    if r.authority.category != MAIL || (r.status != Unconfirmed && r.status != Approved && r.status != ResumePending)
    then []
    else
      match Load(receipt, file)
      case Err(_) => [FreezeWrite()]
      case Ok(s) =>
        if s.category != MAIL || s.authority != r.authority then [FreezeWrite()]
        else if s.phase == Succeeded && s.result.Some? && receipt(s.result.value) == SUBMITTED then
          StampWrites(receipt, s, r, a)
        else if s.phase != OutcomeUnknown || r.status != Unconfirmed then []
        else if r.details.recheckState == Some(NEEDS_REVIEW) || r.details.recheckable == Some(false) then []
        else AskWrites(receipt, file.events, r, a)
  }

  /** Whether a recheck goes as far as asking for the mail's state again. */
  predicate RecheckAsks(receipt: string -> string, file: File, r: Record) {
    && r.authority.category == MAIL && r.status == Unconfirmed
    && r.details.recheckState != Some(NEEDS_REVIEW) && r.details.recheckable != Some(false)
    && InPhase(receipt, file, OutcomeUnknown)
    && Load(receipt, file).value.category == MAIL && Load(receipt, file).value.authority == r.authority
  }

  function ConfirmedStamp(at: string): Details {
    Stamp(SUBMITTED, false, at)
  }

  function Stamp(state: string, recheckable: bool, at: string): Details {
    NO_DETAILS.(recheckState := Some(state), recheckable := Some(recheckable), recheckedAt := Some(at))
  }

  // -- the helper process -----------------------------------------------------------

  datatype Verdict = Quit | Proceed

  /** Whether the helper with `token` may run the action, and what it writes to get there. */
  function PrepareWrites(receipt: string -> string, file: File, r: Record, owner: Owner, durable: Durable)
    : (seq<Write>, Verdict)
  {
    match Load(receipt, file)
    case Err(_) => ([], Quit)
    case Ok(s) =>
      if s.authority != r.authority then ([FreezeWrite()], Quit)
      else
        match s.phase
        case Ready => ([Append(CommittedEvent(owner))], Proceed)
        case HelperStarted =>
          if s.owner.value.token != owner.token then ([], Quit)
          else ([Append(StartedEvent(owner)), Append(CommittedEvent(owner))], Proceed)
        case AttemptCommitted =>
          if s.owner.value.token != owner.token then ([], Quit) else ([], Proceed)
        case Succeeded | Failed | RetryableFailure | OutcomeUnknown =>
          (ProjectWrites(receipt, s, r, durable), Quit)
        case Armed => ([], Quit)
  }

  /** The event that records how the action ended, or none when an Office failure is left for a resume. */
  function OutcomeEvent(receipt: string -> string, category: string, outcome: ActionOutcome): Option<Event> {
    match outcome
    case Returned(result) => Some(ResultEvent(receipt, category, result))
    case StoreBusy(error) => Some(if category == CRON then RetryableEvent(Cut(error)) else FailedEvent(Cut(error)))
    case OtherFailure(error) => Some(FailedEvent(Cut(error)))
    case DocumentFailure(error, exists_, retryable, followUp) =>
      if exists_ && QueuesOverwrite(category) then
        Some(FailedEvent(Cut(if followUp.Ok? then error else followUp.error)))
      else if retryable && IsOffice(category) then None
      else Some(FailedEvent(Cut(error)))
  }

  predicate QueuesOverwrite(category: string) {
    category == "office_create" || category == "office_job"
  }

  /** An outcome event is only recorded while the attempt is still open. */
  function AttemptWrites(receipt: string -> string, file: File, e: Event, seen: Record, durable: Durable): seq<Write> {
    if InPhase(receipt, file, AttemptCommitted) then Conclude(receipt, file.events, e, seen, durable) else []
  }

  /** The follow-up question an existing output queues, noted before the failure is recorded. */
  function FollowUp(category: string, outcome: ActionOutcome): Option<string> {
    if outcome.DocumentFailure? && outcome.outputExists && QueuesOverwrite(category) && outcome.followUp.Ok?
    then Some(outcome.followUp.value) else None
  }

  function OverwriteNote(id: string): Write {
    Resolve(Executing, NO_DETAILS.(followUp := Some(id)))
  }

  /** The helper's outcome region. `seen` is the record it read when it prepared. */
  function OutcomeWrites(receipt: string -> string, file: File, seen: Record, category: string,
                         outcome: ActionOutcome, durable: Durable): seq<Write>
  {
    match OutcomeEvent(receipt, category, outcome)
    case None => []
    case Some(e) =>
      match FollowUp(category, outcome)
      case Some(id) => [OverwriteNote(id)] + AttemptWrites(receipt, file, e, seen, durable)
      case None => AttemptWrites(receipt, file, e, seen, durable)
  }
}

/** The events of an approval execution journal and the state they replay to.
    The reader of a mail receipt (its JSON "state", or "unknown") is a parameter. */
module ExecutionState {
  import opened Outcomes

  datatype Phase =
    | Armed
    | Ready
    | HelperStarted
    | AttemptCommitted
    | Succeeded
    | Failed
    | RetryableFailure
    | OutcomeUnknown

  /** What the authority digest covers. The digest is taken to be injective, so it is its own preimage. */
  datatype Continuation = Absent | Valid | Malformed
  datatype Authority = Authority(category: string, continuation: Continuation, content: nat)

  /** A process as the operating system names it; the generation may be unobservable. */
  datatype Identity = Identity(pid: int, generation: Option<string>)
  /** Secret tokens are drawn fresh for every launch, so they are numbered by launch. */
  datatype Token = Local | Secret(id: nat)
  datatype Owner = Owner(token: Token, identity: Identity)

  datatype Event =
    | ArmedEvent(authority: Authority, category: string)
    | ReadyEvent
    | StartedEvent(owner: Owner)
    | CommittedEvent(owner: Owner)
    | SucceededEvent(result: string)
    | FailedEvent(error: string)
    | RetryableEvent(error: string)
    | UnknownEvent(observed: Option<string>)
    | ForeignEvent(kind: string)

  datatype Snapshot = Snapshot(
    authority: Authority,
    category: string,
    phase: Phase,
    owner: Option<Owner>,
    result: Option<string>,
    error: Option<string>)

  datatype StateError = NotArmed | InvalidPhase | InvalidTransition

  const MAIL := "mail_send"
  const CRON := "cron"
  const SUBMITTED := "submitted"

  predicate IsOffice(category: string) {
    "office_" <= category
  }

  function KindOf(e: Event): Option<Phase> {
    match e
    case ArmedEvent(_, _) => Some(Armed)
    case ReadyEvent => Some(Ready)
    case StartedEvent(_) => Some(HelperStarted)
    case CommittedEvent(_) => Some(AttemptCommitted)
    case SucceededEvent(_) => Some(Succeeded)
    case FailedEvent(_) => Some(Failed)
    case RetryableEvent(_) => Some(RetryableFailure)
    case UnknownEvent(_) => Some(OutcomeUnknown)
    case ForeignEvent(_) => None
  }

  /** The one predecessor the table names for each phase; an armed journal has none. */
  function Predecessor(candidate: Phase): Option<Phase> {
    match candidate
    case Armed => None
    case Ready => Some(Armed)
    case HelperStarted => Some(Ready)
    case AttemptCommitted => Some(HelperStarted)
    case Succeeded | Failed | RetryableFailure | OutcomeUnknown => Some(AttemptCommitted)
  }

  predicate TransitionValid(receipt: string -> string, category: string, phase: Phase, e: Event)
  {
    match KindOf(e)
    case None => false
    case Some(candidate) =>
      || Predecessor(candidate) == Some(phase)
      || (e.SucceededEvent? && phase == OutcomeUnknown && category == MAIL && receipt(e.result) == SUBMITTED)
      || (candidate == Ready && phase == AttemptCommitted && IsOffice(category))
      || (candidate == Ready && phase == RetryableFailure && category == CRON)
      || (candidate == HelperStarted && phase == HelperStarted)
      || (candidate == AttemptCommitted && phase == Ready)
  }

  /** The phase a log replays to. The first event fixes the category for the whole log. */
  function PhaseOf(receipt: string -> string, log: seq<Event>): (r: Result<Phase, StateError>)
    ensures r.Ok? ==> log != [] && log[0].ArmedEvent? && KindOf(log[|log| - 1]) == Some(r.value)
  {
    if log == [] || !log[0].ArmedEvent? then Err(NotArmed)
    else if |log| == 1 then Ok(Armed)
    else
      var last := log[|log| - 1];
      match PhaseOf(receipt, log[..|log| - 1])
      case Err(e) => Err(e)
      case Ok(phase) =>
        if KindOf(last).None? then Err(InvalidPhase)
        else if TransitionValid(receipt, log[0].category, phase, last) then Ok(KindOf(last).value)
        else Err(InvalidTransition)
  }

  function OwnerOf(e: Event): Option<Owner> {
    if e.StartedEvent? || e.CommittedEvent? then Some(e.owner) else None
  }

  function ResultOf(e: Event): Option<string> {
    match e
    case SucceededEvent(r) => Some(r)
    case UnknownEvent(r) => r
    case _ => None
  }

  function ErrorOf(e: Event): Option<string> {
    match e
    case FailedEvent(text) => Some(text)
    case RetryableEvent(text) => Some(text)
    case UnknownEvent(None) => Some("helper died after committing the action attempt")
    case UnknownEvent(Some(_)) => Some("action returned an unconfirmed outcome")
    case _ => None
  }

  /** The snapshot a log stands for: authority from its head, everything else from its tail. */
  function Replay(receipt: string -> string, log: seq<Event>): (r: Result<Snapshot, StateError>)
    ensures r.Ok? <==> PhaseOf(receipt, log).Ok?
    ensures r.Ok? ==> r.value.category == log[0].category && KindOf(log[|log| - 1]) == Some(r.value.phase)
  {
    match PhaseOf(receipt, log)
    case Err(e) => Err(e)
    case Ok(phase) =>
      var tail := log[|log| - 1];
      Ok(Snapshot(log[0].authority, log[0].category, phase, OwnerOf(tail), ResultOf(tail), ErrorOf(tail)))
  }

  /** A rejected event stays rejected, whatever is appended after it. */
  lemma {:induction false} ErrorPersists(receipt: string -> string, log: seq<Event>, n: nat)
    requires 0 < n <= |log| && PhaseOf(receipt, log[..n]).Err?
    ensures PhaseOf(receipt, log) == PhaseOf(receipt, log[..n])
    decreases |log| - n
  {
    if n == |log| {
      assert log[..n] == log;
    } else {
      assert log[..n + 1][..n] == log[..n];
      ErrorPersists(receipt, log, n + 1);
    }
  }

  /** One pass over the events, as the reader runs it. */
  method SnapshotOf(receipt: string -> string, events: seq<Event>) returns (r: Result<Snapshot, StateError>)
    ensures r == Replay(receipt, events)
  {
    if events == [] || !events[0].ArmedEvent? {
      return Err(NotArmed);
    }
    var category := events[0].category;
    var phase := Armed;
    var i := 1;
    while i < |events|
      invariant 1 <= i <= |events|
      invariant PhaseOf(receipt, events[..i]) == Ok(phase)
    {
      assert events[..i + 1][..i] == events[..i];
      var candidate := KindOf(events[i]);
      if candidate.None? || !TransitionValid(receipt, category, phase, events[i]) {
        ErrorPersists(receipt, events, i + 1);
        return Err(if candidate.None? then InvalidPhase else InvalidTransition);
      }
      phase := candidate.value;
      i := i + 1;
    }
    assert events[..i] == events;
    var tail := events[|events| - 1];
    return Ok(Snapshot(events[0].authority, category, phase, OwnerOf(tail), ResultOf(tail), ErrorOf(tail)));
  }

  /** What may follow in each phase. */
  lemma NextEvents(receipt: string -> string, category: string, phase: Phase, e: Event)
    ensures TransitionValid(receipt, category, phase, e) <==>
      match phase
      case Armed => e.ReadyEvent?
      case Ready => e.StartedEvent? || e.CommittedEvent?
      case HelperStarted => e.StartedEvent? || e.CommittedEvent?
      case AttemptCommitted =>
        e.SucceededEvent? || e.FailedEvent? || e.RetryableEvent? || e.UnknownEvent? || (e.ReadyEvent? && "office_" <= category)
      case RetryableFailure => e.ReadyEvent? && category == "cron"
      case OutcomeUnknown => e.SucceededEvent? && category == "mail_send" && receipt(e.result) == "submitted"
      case Succeeded => false
      case Failed => false
  {
  }
}

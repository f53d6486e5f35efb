/** The append-only journal of one approval and its guarded writers. */
module ExecutionJournal {
  import opened Outcomes
  import opened ExecutionState
  import opened ExecutionLedger

  /** The journal file: whole lines, and whether an incomplete line follows them. */
  datatype File = File(events: seq<Event>, torn: bool)

  datatype LoadError = Missing | Incomplete | Illegal(cause: StateError)

  const RESULT_LIMIT := 2000

  function Cut(text: string): string {
    if |text| <= RESULT_LIMIT then text else text[..RESULT_LIMIT]
  }

  predicate Exists(file: File) {
    file.events != [] || file.torn
  }

  function Load(receipt: string -> string, file: File): Result<Snapshot, LoadError> {
    if !Exists(file) then Err(Missing)
    else if file.torn then Err(Incomplete)
    else
      match Replay(receipt, file.events)
      case Ok(s) => Ok(s)
      case Err(e) => Err(Illegal(e))
  }

  predicate InPhase(receipt: string -> string, file: File, phase: Phase) {
    var s := Load(receipt, file);
    s.Ok? && s.value.phase == phase
  }

  function Appended(file: File, e: Event): File {
    file.(events := file.events + [e])
  }

  /** An appended event is accepted exactly when the phase before it allows it. */
  lemma AppendedReplay(receipt: string -> string, log: seq<Event>, e: Event)
    requires PhaseOf(receipt, log).Ok?
    ensures PhaseOf(receipt, log + [e]) ==
            if KindOf(e).None? then Err(InvalidPhase)
            else if TransitionValid(receipt, log[0].category, PhaseOf(receipt, log).value, e) then Ok(KindOf(e).value)
            else Err(InvalidTransition)
  {
    assert (log + [e])[..|log|] == log;
  }

  class ExecutionJournal {
    const receipt: string -> string
    var file: File

    constructor (receipt: string -> string)
      ensures this.receipt == receipt && file == File([], false)
    {
      this.receipt := receipt;
      file := File([], false);
    }

    method LoadSnapshot() returns (r: Result<Snapshot, LoadError>)
      ensures r == Load(receipt, file)
    {
      if file.torn {
        return Err(Incomplete);
      }
      if file.events == [] {
        return Err(Missing);
      }
      var s := SnapshotOf(receipt, file.events);
      match s {
        case Ok(snapshot) => r := Ok(snapshot);
        case Err(e) => r := Err(Illegal(e));
      }
    }

    /** Seals the authority. Any existing file, even a torn one, refuses. */
    method Arm(authority: Authority, category: string) returns (ok: bool)
      modifies this
      ensures ok == !Exists(old(file))
      ensures file == if ok then Appended(old(file), ArmedEvent(authority, category)) else old(file)
      ensures ok ==> Load(receipt, file) == Ok(Snapshot(authority, category, Armed, None, None, None))
    {
      ok := !Exists(file);
      if ok {
        file := Appended(file, ArmedEvent(authority, category));
      }
    }

    /** Appends `e` from the expected phase only. */
    method Transition(expected: Phase, e: Event) returns (ok: bool)
      requires KindOf(e).Some? && Predecessor(KindOf(e).value) == Some(expected)
      modifies this
      ensures ok == InPhase(receipt, old(file), expected)
      ensures file == if ok then Appended(old(file), e) else old(file)
      ensures ok ==> InPhase(receipt, file, KindOf(e).value)
    {
      var s := LoadSnapshot();
      ok := s.Ok? && s.value.phase == expected;
      if ok {
        AppendedReplay(receipt, file.events, e);
        file := Appended(file, e);
      }
    }

    method MakeReady() returns (ok: bool)
      modifies this
      ensures ok == InPhase(receipt, old(file), Armed)
      ensures file == if ok then Appended(old(file), ReadyEvent) else old(file)
      ensures ok ==> InPhase(receipt, file, Ready)
    {
      ok := Transition(Armed, ReadyEvent);
    }

    method StartHelper(owner: Owner) returns (ok: bool)
      modifies this
      ensures ok == (InPhase(receipt, old(file), Ready) || InPhase(receipt, old(file), HelperStarted))
      ensures file == if ok then Appended(old(file), StartedEvent(owner)) else old(file)
      ensures ok ==> InPhase(receipt, file, HelperStarted) && Load(receipt, file).value.owner == Some(owner)
    {
      var s := LoadSnapshot();
      ok := s.Ok? && (s.value.phase == Ready || s.value.phase == HelperStarted);
      if ok {
        AppendedReplay(receipt, file.events, StartedEvent(owner));
        file := Appended(file, StartedEvent(owner));
      }
    }

    /** Commits the attempt for `owner`: an unowned ready journal, or one whose helper holds the same token. */
    method CommitAttempt(owner: Owner) returns (ok: bool)
      modifies this
      ensures ok == (|| InPhase(receipt, old(file), Ready)
                     || (InPhase(receipt, old(file), HelperStarted)
                         && Load(receipt, old(file)).value.owner.value.token == owner.token))
      ensures file == if ok then Appended(old(file), CommittedEvent(owner)) else old(file)
      ensures ok ==> InPhase(receipt, file, AttemptCommitted) && Load(receipt, file).value.owner == Some(owner)
    {
      var s := LoadSnapshot();
      ok := && s.Ok?
            && (s.value.phase == Ready || s.value.phase == HelperStarted)
            && (s.value.owner.None? || s.value.owner.value.token == owner.token);
      if ok {
        AppendedReplay(receipt, file.events, CommittedEvent(owner));
        file := Appended(file, CommittedEvent(owner));
      }
    }

    method ResumeOffice() returns (ok: bool)
      modifies this
      ensures ok == (InPhase(receipt, old(file), AttemptCommitted) && IsOffice(Load(receipt, old(file)).value.category))
      ensures file == if ok then Appended(old(file), ReadyEvent) else old(file)
      ensures ok ==> InPhase(receipt, file, Ready)
    {
      var s := LoadSnapshot();
      ok := s.Ok? && IsOffice(s.value.category) && s.value.phase == AttemptCommitted;
      if ok {
        AppendedReplay(receipt, file.events, ReadyEvent);
        file := Appended(file, ReadyEvent);
      }
    }

    method RetryCron() returns (ok: bool)
      modifies this
      ensures ok == (InPhase(receipt, old(file), RetryableFailure) && Load(receipt, old(file)).value.category == CRON)
      ensures file == if ok then Appended(old(file), ReadyEvent) else old(file)
      ensures ok ==> InPhase(receipt, file, Ready)
    {
      var s := LoadSnapshot();
      ok := s.Ok? && s.value.category == CRON && s.value.phase == RetryableFailure;
      if ok {
        AppendedReplay(receipt, file.events, ReadyEvent);
        file := Appended(file, ReadyEvent);
      }
    }

    method Succeed(result: string) returns (ok: bool)
      modifies this
      ensures ok == InPhase(receipt, old(file), AttemptCommitted)
      ensures file == if ok then Appended(old(file), SucceededEvent(Cut(result))) else old(file)
      ensures ok ==> InPhase(receipt, file, Succeeded) && Load(receipt, file).value.result == Some(Cut(result))
    {
      ok := Transition(AttemptCommitted, SucceededEvent(Cut(result)));
    }

    /** Confirms an unknown mail outcome. The receipt is checked whole but stored cut, and the reader
        checks what is stored: the log stays readable exactly when the cut receipt still says submitted. */
    method ConfirmMailSucceeded(result: string) returns (ok: bool)
      modifies this
      ensures ok == (&& InPhase(receipt, old(file), OutcomeUnknown)
                     && Load(receipt, old(file)).value.category == MAIL
                     && receipt(result) == SUBMITTED)
      ensures file == if ok then Appended(old(file), SucceededEvent(Cut(result))) else old(file)
      ensures ok ==> (InPhase(receipt, file, Succeeded) <==> receipt(Cut(result)) == SUBMITTED)
      ensures ok ==> (Load(receipt, file).Err? <==> receipt(Cut(result)) != SUBMITTED)
    {
      var s := LoadSnapshot();
      ok := && s.Ok? && s.value.category == MAIL
            && s.value.phase == OutcomeUnknown && receipt(result) == SUBMITTED;
      if ok {
        AppendedReplay(receipt, file.events, SucceededEvent(Cut(result)));
        file := Appended(file, SucceededEvent(Cut(result)));
      }
    }

    method Fail(error: string) returns (ok: bool)
      modifies this
      ensures ok == InPhase(receipt, old(file), AttemptCommitted)
      ensures file == if ok then Appended(old(file), FailedEvent(Cut(error))) else old(file)
      ensures ok ==> InPhase(receipt, file, Failed)
    {
      ok := Transition(AttemptCommitted, FailedEvent(Cut(error)));
    }

    method FailRetryably(error: string) returns (ok: bool)
      modifies this
      ensures ok == (InPhase(receipt, old(file), AttemptCommitted) && Load(receipt, old(file)).value.category == CRON)
      ensures file == if ok then Appended(old(file), RetryableEvent(Cut(error))) else old(file)
      ensures ok ==> InPhase(receipt, file, RetryableFailure)
    {
      var s := LoadSnapshot();
      ok := s.Ok? && s.value.category == CRON;
      if ok {
        ok := Transition(AttemptCommitted, RetryableEvent(Cut(error)));
      }
    }

    method RecordUnknown(result: Option<string>) returns (ok: bool)
      modifies this
      ensures ok == InPhase(receipt, old(file), AttemptCommitted)
      ensures file == if ok then Appended(old(file), UnknownEvent(CutOption(result))) else old(file)
      ensures ok ==> InPhase(receipt, file, OutcomeUnknown)
    {
      ok := Transition(AttemptCommitted, UnknownEvent(CutOption(result)));
    }
  }

  function CutOption(text: Option<string>): Option<string> {
    match text
    case None => None
    case Some(t) => Some(Cut(t))
  }

  /** The confirming writer stores the cut receipt; if that no longer reads submitted, the reader rejects the log for ever,
      whatever the reader of receipts, the log and the receipt are. */
  lemma LongReceiptBreaksReader(receipt: string -> string, log: seq<Event>, result: string, later: seq<Event>)
    requires PhaseOf(receipt, log) == Ok(OutcomeUnknown) && receipt(Cut(result)) != SUBMITTED
    ensures PhaseOf(receipt, log + [SucceededEvent(Cut(result))] + later).Err?
  {
    var broken := log + [SucceededEvent(Cut(result))];
    AppendedReplay(receipt, log, SucceededEvent(Cut(result)));
    assert (broken + later)[..|broken|] == broken;
    ErrorPersists(receipt, broken + later, |broken|);
  }

  /** The writer does get there: a reader of receipts, a mail log and a submitted receipt one character over the limit. */
  lemma LongReceiptIsAccepted() returns (receipt: string -> string, log: seq<Event>, result: string)
    ensures PhaseOf(receipt, log) == Ok(OutcomeUnknown) && log[0].category == MAIL
    ensures receipt(result) == SUBMITTED && receipt(Cut(result)) != SUBMITTED && |result| == RESULT_LIMIT + 1
  {
    receipt := (r: string) => if |r| > RESULT_LIMIT then SUBMITTED else "unknown";
    var owner := Owner(Secret(0), Identity(1, None));
    var l1 := [ArmedEvent(Authority(MAIL, Absent, 0), MAIL)];
    AppendedReplay(receipt, l1, ReadyEvent);
    AppendedReplay(receipt, l1 + [ReadyEvent], CommittedEvent(owner));
    AppendedReplay(receipt, l1 + [ReadyEvent] + [CommittedEvent(owner)], UnknownEvent(None));
    log := l1 + [ReadyEvent] + [CommittedEvent(owner)] + [UnknownEvent(None)];
    result := seq(RESULT_LIMIT + 1, i => 'x');
  }

  /** A receipt within the limit is stored whole, so confirming it never breaks the reader. */
  lemma ShortReceiptStaysReadable(receipt: string -> string, log: seq<Event>, result: string)
    requires PhaseOf(receipt, log) == Ok(OutcomeUnknown) && log[0].category == MAIL
    requires receipt(result) == SUBMITTED && |result| <= RESULT_LIMIT
    ensures PhaseOf(receipt, log + [SucceededEvent(Cut(result))]) == Ok(Succeeded)
  {
    AppendedReplay(receipt, log, SucceededEvent(Cut(result)));
  }
}

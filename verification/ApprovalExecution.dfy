/** The lock-held regions as the program runs them, step by step, over one record and its journal.
    Every durable write is also noted in `writes`; each method is proved to write exactly its plan. */
module ApprovalExecution {
  import opened Outcomes
  import opened ExecutionState
  import opened ExecutionJournal
  import opened ApprovalPlans

  /** The record and the journal after a sequence of durable writes. */
  function Applied(file: File, r: Record, writes: seq<Write>): (File, Record) {
    if writes == [] then (file, r)
    else
      var (f, s) := Applied(file, r, writes[..|writes| - 1]);
      var x := writes[|writes| - 1];
      (if x.Append? then Appended(f, x.event) else f, Written(s, x))
  }

  class Approval {
    const journal: ExecutionJournal
    var record: Record
    ghost const file0: File
    ghost const record0: Record
    ghost var writes: seq<Write>

    /** The durable state is what the noted writes made of the initial one. */
    ghost predicate Valid()
      reads this, journal
    {
      (journal.file, record) == Applied(file0, record0, writes)
    }

    constructor (journal: ExecutionJournal, record: Record)
      ensures this.journal == journal && this.record == record && writes == [] && Valid()
      ensures file0 == journal.file && record0 == record
    {
      this.journal := journal;
      this.record := record;
      file0 := journal.file;
      record0 := record;
      writes := [];
    }

    ghost method Note(x: Write)
      requires !x.Append? && (journal.file, record) == (Applied(file0, record0, writes).0, Written(Applied(file0, record0, writes).1, x))
      modifies this`writes
      ensures writes == old(writes) + [x] && Valid()
    {
      assert (writes + [x])[..|writes|] == writes;
      writes := writes + [x];
    }

    ghost method NoteAppend(e: Event)
      requires (journal.file, record) == (Appended(Applied(file0, record0, writes).0, e), Applied(file0, record0, writes).1)
      modifies this`writes
      ensures writes == old(writes) + [Append(e)] && Valid()
    {
      assert (writes + [Append(e)])[..|writes|] == writes;
      writes := writes + [Append(e)];
    }

    /** Overwrites the status and the given details, whatever they were. */
    method ResolvePending(status: Status, updates: Details)
      requires Valid()
      modifies this`record, this`writes
      ensures Valid() && writes == old(writes) + [Resolve(status, updates)]
    {
      record := record.(status := status, details := Overlay(record.details, updates));
      Note(Resolve(status, updates));
    }

    // -- claiming ---------------------------------------------------------------

    method Claim() returns (ok: bool)
      requires Valid()
      modifies this`record, this`writes
      ensures Valid() && writes == old(writes) + ClaimWrites(old(record))
      ensures ok == (record.status == Approving && old(record).status == Pending)
    {
      ok := false;
      if record.status != Pending || record.questionsOpen || record.authority.category == "workflow" {
        return;
      }
      ResolvePending(Approving, NO_DETAILS);
      WrittenLast(file0, record0, writes);
      ok := true;
    }

    method RestoreClaim() returns (ok: bool)
      requires Valid()
      modifies this`record, this`writes
      ensures Valid() && writes == old(writes) + RestoreWrites(old(record))
      ensures ok == (old(record).status == Approving)
    {
      ok := record.status == Approving;
      if ok {
        ResolvePending(Pending, NO_DETAILS);
      }
    }

    method Reject() returns (ok: bool)
      requires Valid()
      modifies this`record, this`writes
      ensures Valid() && writes == old(writes) + RejectWrites(old(record))
      ensures ok == (old(record).status == Pending)
    {
      ok := record.status == Pending;
      if ok {
        ResolvePending(Rejected, NO_DETAILS);
      }
    }

    /** Seals a claimed action before anything runs. */
    method Seal() returns (ok: bool)
      requires Valid()
      modifies this`record, this`writes, journal
      ensures Valid() && writes == old(writes) + SealWrites(journal.receipt, old(journal.file), old(record))
      ensures ok ==> record.status == Executing && InPhase(journal.receipt, journal.file, Ready)
    {
      ok := false;
      if record.status != Approving {
        return;
      }
      if record.authority.continuation == Malformed {
        ResolvePending(Failure, NO_DETAILS.(stage := Some(Validation)));
        return;
      }
      if !record.payloadReadable {
        ResolvePending(Frozen, NO_DETAILS.(stage := Some(Integrity)));
        return;
      }
      if Exists(journal.file) {
        var s := journal.LoadSnapshot();
        if s.Err? || s.value.authority != record.authority || s.value.category != CRON || s.value.phase != RetryableFailure {
          return;
        }
        var retried := journal.RetryCron();
        NoteAppend(ReadyEvent);
      } else {
        ArmAndReady(record);
      }
      ResolvePending(Executing, NO_DETAILS);
      WrittenLast(file0, record0, writes);
      ok := true;
    }

    // -- projection ---------------------------------------------------------------

    /** Projects a finished journal onto the record; `seen` is the record the region read. */
    method ProjectTerminal(s: Snapshot, seen: Record, durable: Durable)
      requires Valid()
      modifies this`record, this`writes
      ensures Valid() && writes == old(writes) + ProjectWrites(journal.receipt, s, seen, durable)
    {
      match s.phase {
        case Succeeded =>
          var answer := DurableResult(s, durable);
          match answer {
            case Raises =>
            case NoReceipt => ResolvePending(Frozen, NO_DETAILS.(stage := Some(Integrity)));
            case Receipt(text) =>
              var status := if seen.authority.continuation != Absent then ResumePending else Approved;
              ResolvePending(status, NO_DETAILS.(actionReceipt := Some(text)));
          }
        case Failed => ResolvePending(Failure, NO_DETAILS.(stage := Some(Action), error := s.error));
        case RetryableFailure => ResolvePending(Pending, NO_DETAILS.(error := s.error));
        case OutcomeUnknown =>
          var updates := NO_DETAILS;
          if s.category == MAIL && s.result.Some? && seen.details.recheckState.None? {
            var state := journal.receipt(s.result.value);
            updates := updates.(recheckState := Some(state), recheckable := Some(Recheckable(state)));
          }
          ResolvePending(Unconfirmed, updates.(stage := Some(UnknownOutcome)));
        case Armed | Ready | HelperStarted | AttemptCommitted =>
      }
    }

    /** Projects the journal as it reads after event `e`, the write just made. */
    method ProjectAfter(ghost before: seq<Event>, ghost e: Event, seen: Record, durable: Durable) returns (readable: bool)
      requires Valid() && journal.file == File(before + [e], false)
      requires writes != [] && writes[|writes| - 1] == Append(e)
      modifies this`record, this`writes
      ensures Valid() && readable == Replay(journal.receipt, before + [e]).Ok?
      ensures writes == old(writes)[..|old(writes)| - 1] + Conclude(journal.receipt, before, e, seen, durable)
    {
      var s := journal.LoadSnapshot();
      readable := s.Ok?;
      if readable {
        ProjectTerminal(s.value, seen, durable);
      }
    }

    /** Journals a returned action; a mail send succeeds only once submitted. */
    method RecordResult(category: string, result: string)
      requires Valid() && InPhase(journal.receipt, journal.file, AttemptCommitted)
      modifies this`writes, journal
      ensures Valid() && record == old(record)
      ensures writes == old(writes) + [Append(ResultEvent(journal.receipt, category, result))]
      ensures journal.file == Appended(old(journal.file), ResultEvent(journal.receipt, category, result))
    {
      if category == MAIL && journal.receipt(result) != SUBMITTED {
        var ok := journal.RecordUnknown(Some(result));
        NoteAppend(UnknownEvent(Some(Cut(result))));
      } else {
        var ok := journal.Succeed(result);
        NoteAppend(SucceededEvent(Cut(result)));
      }
    }

    // -- recovery ------------------------------------------------------------------

    /** Starts one helper and durably binds its identity. */
    method LaunchHelper(token: nat, identity: Identity)
      requires Valid()
      requires InPhase(journal.receipt, journal.file, Ready) || InPhase(journal.receipt, journal.file, HelperStarted)
      modifies this`writes, journal
      ensures Valid() && writes == old(writes) + LaunchWrites(token, identity)
      ensures InPhase(journal.receipt, journal.file, HelperStarted)
    {
      var owner := Owner(Secret(token), identity);
      Note(Spawn(identity));
      var ok := journal.StartHelper(owner);
      NoteAppend(StartedEvent(owner));
      assert old(writes) + [Spawn(identity)] + [Append(StartedEvent(owner))]
          == old(writes) + [Spawn(identity), Append(StartedEvent(owner))];
    }

    /** Declares the outcome of an open attempt unknown, and projects it. */
    method ConcludeUnknown(result: Option<string>, seen: Record, durable: Durable)
      requires Valid() && InPhase(journal.receipt, journal.file, AttemptCommitted)
      modifies this`record, this`writes, journal
      ensures Valid()
      ensures writes == old(writes) +
                Conclude(journal.receipt, old(journal.file).events, UnknownEvent(CutOption(result)), seen, durable)
      ensures journal.file == Appended(old(journal.file), UnknownEvent(CutOption(result)))
    {
      var ok := journal.RecordUnknown(result);
      NoteAppend(UnknownEvent(CutOption(result)));
      var readable := ProjectAfter(old(journal.file).events, UnknownEvent(CutOption(result)), seen, durable);
    }

    method ConcludeResult(category: string, result: string, seen: Record, durable: Durable)
      requires Valid() && InPhase(journal.receipt, journal.file, AttemptCommitted)
      modifies this`record, this`writes, journal
      ensures Valid()
      ensures writes == old(writes) +
                Conclude(journal.receipt, old(journal.file).events, ResultEvent(journal.receipt, category, result), seen, durable)
      ensures journal.file == Appended(old(journal.file), ResultEvent(journal.receipt, category, result))
    {
      RecordResult(category, result);
      var readable := ProjectAfter(old(journal.file).events, ResultEvent(journal.receipt, category, result), seen, durable);
    }

    /** Settles a mail attempt whose owner is gone by observing the mail again. */
    method RecoverMail(seen: Record, a: Answers)
      requires Valid() && InPhase(journal.receipt, journal.file, AttemptCommitted)
      modifies this`record, this`writes, journal
      ensures Valid()
      ensures writes == old(writes) +
                Conclude(journal.receipt, old(journal.file).events, ReconcileEvent(journal.receipt, a.reconciled), seen, a.durable)
    {
      match a.reconciled {
        case Unreachable => ConcludeUnknown(None, seen, a.durable);
        case Unverifiable => ConcludeUnknown(Some(NEEDS_REVIEW_RECEIPT), seen, a.durable);
        case Observed(text) => ConcludeResult(MAIL, text, seen, a.durable);
      }
    }

    method ResumeAttempt(token: nat, identity: Identity)
      requires Valid() && InPhase(journal.receipt, journal.file, AttemptCommitted)
      requires IsOffice(Load(journal.receipt, journal.file).value.category)
      modifies this`writes, journal
      ensures Valid() && writes == old(writes) + ([Append(ReadyEvent)] + LaunchWrites(token, identity))
    {
      var ok := journal.ResumeOffice();
      NoteAppend(ReadyEvent);
      LaunchHelper(token, identity);
    }

    method RecoverJournal(seen: Record, token: nat, a: Answers)
      requires Valid()
      modifies this`record, this`writes, journal
      ensures Valid()
      ensures writes == old(writes) + RecoverLoaded(journal.receipt, old(journal.file), seen, token, a)
    {
      var loaded := journal.LoadSnapshot();
      if loaded.Err? {
        ResolvePending(Frozen, NO_DETAILS.(stage := Some(Integrity)));
        return;
      }
      var s := loaded.value;
      if s.authority != seen.authority {
        ResolvePending(Frozen, NO_DETAILS.(stage := Some(Integrity)));
        return;
      }
      match s.phase {
        case Armed =>
          var ok := journal.MakeReady();
          NoteAppend(ReadyEvent);
          ResolvePending(Executing, NO_DETAILS);
          LaunchHelper(token, a.spawned);
        case Ready => LaunchHelper(token, a.spawned);
        case HelperStarted =>
          if !OwnerAlive(s.owner, a.processes) {
            LaunchHelper(token, a.spawned);
          }
        case AttemptCommitted =>
          if !OwnerAlive(s.owner, a.processes) {
            if s.category == MAIL {
              RecoverMail(seen, a);
            } else if IsOffice(s.category) {
              ResumeAttempt(token, a.spawned);
            } else {
              ConcludeUnknown(None, seen, a.durable);
            }
          }
        case Succeeded | Failed | RetryableFailure | OutcomeUnknown => ProjectTerminal(s, seen, a.durable);
      }
    }

    /** Arms and readies a journal for a record of an older version. */
    method ArmAndReady(seen: Record)
      requires Valid() && !Exists(journal.file)
      modifies this`writes, journal
      ensures Valid() && record == old(record)
      ensures var sealed := [ArmedEvent(seen.authority, seen.authority.category), ReadyEvent];
              && writes == old(writes) + [Append(sealed[0]), Append(sealed[1])]
              && journal.file == File(sealed, false) && InPhase(journal.receipt, journal.file, Ready)
    {
      var armed := journal.Arm(seen.authority, seen.authority.category);
      NoteAppend(ArmedEvent(seen.authority, seen.authority.category));
      var made := journal.MakeReady();
      NoteAppend(ReadyEvent);
    }

    /** Commits a local attempt and settles it by what the old receipt proves. */
    method SettleLegacy(seen: Record, category: string, a: Answers)
      requires Valid() && !journal.file.torn && InPhase(journal.receipt, journal.file, Ready)
      modifies this`record, this`writes, journal
      ensures Valid()
      ensures var committed := old(journal.file).events + [CommittedEvent(LOCAL_OWNER)];
              var e := LegacyEvent(journal.receipt, category, a);
              && journal.file == File(committed + [e], false)
              && writes == old(writes) + SettleWrites(journal.receipt, old(journal.file).events, e, seen, a.durable)
    {
      var ok := journal.CommitAttempt(LOCAL_OWNER);
      NoteAppend(CommittedEvent(LOCAL_OWNER));
      if a.legacy.Some? {
        ConcludeResult(category, a.legacy.value, seen, a.durable);
      } else {
        ConcludeUnknown(None, seen, a.durable);
      }
    }

    method MigrateOfficeJob(seen: Record, token: nat, a: Answers)
      requires Valid() && !Exists(journal.file)
      modifies this`record, this`writes, journal
      ensures Valid()
      ensures var sealed := [ArmedEvent(seen.authority, seen.authority.category), ReadyEvent];
              writes == old(writes) + ([Append(sealed[0]), Append(sealed[1])]
                                       + RecoverLoaded(journal.receipt, File(sealed, false), seen, token, a))
    {
      ArmAndReady(seen);
      RecoverJournal(seen, token, a);
    }

    method MigrateSettled(seen: Record, token: nat, a: Answers)
      requires Valid() && !Exists(journal.file)
      modifies this`record, this`writes, journal
      ensures Valid()
      ensures var sealed := [ArmedEvent(seen.authority, seen.authority.category), ReadyEvent];
              var e := LegacyEvent(journal.receipt, seen.authority.category, a);
              writes == old(writes) + ([Append(sealed[0]), Append(sealed[1])]
                + (SettleWrites(journal.receipt, sealed, e, seen, a.durable)
                   + RecoverLoaded(journal.receipt, File(sealed + [CommittedEvent(LOCAL_OWNER), e], false), seen, token, a)))
    {
      ghost var w0 := writes;
      ArmAndReady(seen);
      ghost var sealed := journal.file.events;
      ghost var e := LegacyEvent(journal.receipt, seen.authority.category, a);
      ghost var opening := [Append(sealed[0]), Append(sealed[1])];
      ghost var settle := SettleWrites(journal.receipt, sealed, e, seen, a.durable);
      SettleLegacy(seen, seen.authority.category, a);
      assert sealed + [CommittedEvent(LOCAL_OWNER)] + [e] == sealed + [CommittedEvent(LOCAL_OWNER), e];
      assert writes == w0 + opening + settle;
      RecoverJournal(seen, token, a);
      Reassociate(w0, opening, settle, writes[|w0| + 2 + |settle|..]);
    }

    /** Gives a record of an older version a journal, and recovers from there. */
    method MigrateLegacy(token: nat, a: Answers)
      requires Valid() && !Exists(journal.file)
      modifies this`record, this`writes, journal
      ensures Valid()
      ensures writes == old(writes) + MigrateWrites(journal.receipt, old(record), token, a)
    {
      if record.status == Approving {
        ResolvePending(Pending, NO_DETAILS);
      } else if record.status == Executing && record.payloadReadable {
        if record.authority.category == "office_job" {
          MigrateOfficeJob(record, token, a);
        } else {
          MigrateSettled(record, token, a);
        }
      }
    }

    /** Projects, launches, resumes or declares an outcome unknown; a frozen record is left alone. */
    method RecoverOne(token: nat, a: Answers)
      requires Valid()
      modifies this`record, this`writes, journal
      ensures Valid()
      ensures writes == old(writes) + RecoverWrites(journal.receipt, old(journal.file), old(record), token, a)
    {
      if record.status == Frozen {
        return;
      }
      if !Exists(journal.file) {
        MigrateLegacy(token, a);
      } else {
        RecoverJournal(record, token, a);
      }
    }

    /** Re-observes an unknown mail send and confirms it only on a submitted receipt. */
    method RecheckUnknownMail(a: Answers)
      requires Valid()
      modifies this`record, this`writes, journal
      ensures Valid()
      ensures writes == old(writes) + RecheckWrites(journal.receipt, old(journal.file), old(record), a)
    {
      var seen := record;
      if seen.authority.category != MAIL
         || (seen.status != Unconfirmed && seen.status != Approved && seen.status != ResumePending) {
        return;
      }
      var loaded := journal.LoadSnapshot();
      if loaded.Err? || loaded.value.category != MAIL || loaded.value.authority != seen.authority {
        ResolvePending(Frozen, NO_DETAILS.(stage := Some(Integrity)));
        return;
      }
      var s := loaded.value;
      if s.phase == Succeeded && s.result.Some? && journal.receipt(s.result.value) == SUBMITTED {
        StampConfirmed(s, a);
      } else if s.phase == OutcomeUnknown && seen.status == Unconfirmed
                && seen.details.recheckState != Some(NEEDS_REVIEW) && seen.details.recheckable != Some(false) {
        AskAgain(a);
      }
    }

    /** A confirmed mail: finishes an interrupted projection and stamps the record. */
    method StampConfirmed(s: Snapshot, a: Answers)
      requires Valid()
      modifies this`record, this`writes
      ensures Valid()
      ensures writes == old(writes) + StampWrites(journal.receipt, s, old(record), a)
    {
      var seen := record;
      var at := a.checkedAt;
      if seen.details.recheckedAt.Some? && seen.details.recheckedAt.value != "" {
        at := seen.details.recheckedAt.value;
      }
      if seen.status == Unconfirmed {
        ProjectTerminal(s, seen, a.durable);
      }
      if record.status == Approved || record.status == ResumePending {
        record := record.(details := Overlay(record.details, ConfirmedStamp(at)));
      }
      Note(RestampDelivered(ConfirmedStamp(at)));
    }

    method AskAgain(a: Answers)
      requires Valid() && RecheckAsks(journal.receipt, journal.file, record)
      modifies this`record, this`writes, journal
      ensures Valid()
      ensures writes == old(writes) + AskWrites(journal.receipt, old(journal.file).events, old(record), a)
    {
      match a.reconciled {
        case Unverifiable => ResolvePending(Unconfirmed, Stamp(NEEDS_REVIEW, false, a.checkedAt));
        case Unreachable => ResolvePending(Unconfirmed, Stamp("unknown", true, a.checkedAt));
        case Observed(text) =>
          var state := journal.receipt(text);
          if state != SUBMITTED {
            ResolvePending(Unconfirmed, Stamp(state, Recheckable(state), a.checkedAt));
          } else {
            ConfirmMail(text, a);
          }
      }
    }

    method ConfirmMail(text: string, a: Answers)
      requires Valid() && InPhase(journal.receipt, journal.file, OutcomeUnknown)
      requires Load(journal.receipt, journal.file).value.category == MAIL && journal.receipt(text) == SUBMITTED
      modifies this`record, this`writes, journal
      ensures Valid()
      ensures writes == old(writes) + ConfirmWrites(journal.receipt, old(journal.file).events, text, old(record), a)
    {
      var seen := record;
      var ok := journal.ConfirmMailSucceeded(text);
      NoteAppend(SucceededEvent(Cut(text)));
      var readable := ProjectAfter(old(journal.file).events, SucceededEvent(Cut(text)), seen, a.durable);
      if readable {
        record := record.(details := Overlay(record.details, ConfirmedStamp(a.checkedAt)));
        Note(Restamp(ConfirmedStamp(a.checkedAt)));
      }
    }

    // -- the helper's two regions ---------------------------------------------------

    /** Decides, under the lock, whether this helper may run the action. */
    method PrepareLocked(owner: Owner, durable: Durable) returns (verdict: Verdict)
      requires Valid()
      modifies this`record, this`writes, journal
      ensures Valid()
      ensures var (todo, v) := PrepareWrites(journal.receipt, old(journal.file), old(record), owner, durable);
              writes == old(writes) + todo && verdict == v
      ensures verdict == Proceed ==> InPhase(journal.receipt, journal.file, AttemptCommitted)
                                     && Load(journal.receipt, journal.file).value.owner.value.token == owner.token
    {
      verdict := Quit;
      var loaded := journal.LoadSnapshot();
      if loaded.Err? {
        return;
      }
      var s := loaded.value;
      if s.authority != record.authority {
        ResolvePending(Frozen, NO_DETAILS.(stage := Some(Integrity)));
        return;
      }
      if s.phase in {Succeeded, Failed, RetryableFailure, OutcomeUnknown} {
        ProjectTerminal(s, record, durable);
        return;
      }
      if s.phase == Armed {
        return;
      }
      if s.phase in {HelperStarted, AttemptCommitted} && s.owner.value.token != owner.token {
        return;
      }
      if s.phase != AttemptCommitted {
        BindAndCommit(owner, s.phase == HelperStarted);
      }
      verdict := Proceed;
    }

    /** Binds a launched helper to its own identity, and commits its attempt. */
    method BindAndCommit(owner: Owner, launched: bool)
      requires Valid() && InPhase(journal.receipt, journal.file, if launched then HelperStarted else Ready)
      requires launched ==> Load(journal.receipt, journal.file).value.owner.value.token == owner.token
      modifies this`writes, journal
      ensures Valid() && record == old(record)
      ensures writes == old(writes) + (if launched then [Append(StartedEvent(owner)), Append(CommittedEvent(owner))]
                                       else [Append(CommittedEvent(owner))])
      ensures InPhase(journal.receipt, journal.file, AttemptCommitted)
              && Load(journal.receipt, journal.file).value.owner.value.token == owner.token
    {
      if launched {
        var bound := journal.StartHelper(owner);
        NoteAppend(StartedEvent(owner));
      }
      var committed := journal.CommitAttempt(owner);
      NoteAppend(CommittedEvent(owner));
    }

    /** Records a failure of the open attempt and projects it; otherwise the journal has moved on. */
    method ConcludeFailure(error: string, seen: Record, durable: Durable)
      requires Valid()
      modifies this`record, this`writes, journal
      ensures Valid()
      ensures writes == old(writes) + AttemptWrites(journal.receipt, old(journal.file), FailedEvent(Cut(error)), seen, durable)
    {
      var ok := journal.Fail(error);
      if ok {
        NoteAppend(FailedEvent(Cut(error)));
        var readable := ProjectAfter(old(journal.file).events, FailedEvent(Cut(error)), seen, durable);
      }
    }

    method ConcludeBusy(category: string, error: string, seen: Record, durable: Durable)
      requires Valid() && (Load(journal.receipt, journal.file).Ok? ==> Load(journal.receipt, journal.file).value.category == category)
      modifies this`record, this`writes, journal
      ensures Valid()
      ensures writes == old(writes) +
                OutcomeWrites(journal.receipt, old(journal.file), seen, category, StoreBusy(error), durable)
    {
      if category != CRON {
        ConcludeFailure(error, seen, durable);
      } else {
        var ok := journal.FailRetryably(error);
        if ok {
          NoteAppend(RetryableEvent(Cut(error)));
          var readable := ProjectAfter(old(journal.file).events, RetryableEvent(Cut(error)), seen, durable);
        }
      }
    }

    /** An existing output: the follow-up is noted before the failure. */
    method ConcludeOverwrite(error: string, id: string, seen: Record, durable: Durable)
      requires Valid()
      modifies this`record, this`writes, journal
      ensures Valid()
      ensures writes == old(writes) + ([OverwriteNote(id)]
                + AttemptWrites(journal.receipt, old(journal.file), FailedEvent(Cut(error)), seen, durable))
    {
      ResolvePending(Executing, NO_DETAILS.(followUp := Some(id)));
      ConcludeFailure(error, seen, durable);
    }

    /** A document error: an overwrite question is queued, a retryable Office error is left for a resume. */
    method ConcludeDocument(outcome: ActionOutcome, category: string, seen: Record, durable: Durable)
      requires Valid() && outcome.DocumentFailure?
      modifies this`record, this`writes, journal
      ensures Valid()
      ensures writes == old(writes) + OutcomeWrites(journal.receipt, old(journal.file), seen, category, outcome, durable)
    {
      if outcome.outputExists && QueuesOverwrite(category) {
        match outcome.followUp {
          case Err(reason) => ConcludeFailure(reason, seen, durable);
          case Ok(id) => ConcludeOverwrite(outcome.error, id, seen, durable);
        }
      } else if !(outcome.retryable && IsOffice(category)) {
        ConcludeFailure(outcome.error, seen, durable);
      }
    }

    /** Records how the action ended, unless the journal has moved on without this helper. */
    method RecordOutcome(seen: Record, category: string, outcome: ActionOutcome, durable: Durable)
      requires Valid() && (Load(journal.receipt, journal.file).Ok? ==> Load(journal.receipt, journal.file).value.category == category)
      modifies this`record, this`writes, journal
      ensures Valid()
      ensures writes == old(writes) + OutcomeWrites(journal.receipt, old(journal.file), seen, category, outcome, durable)
    {
      match outcome {
        case Returned(result) =>
          var s := journal.LoadSnapshot();
          if s.Ok? && s.value.phase == AttemptCommitted {
            ConcludeResult(category, result, seen, durable);
          }
        case StoreBusy(error) => ConcludeBusy(category, error, seen, durable);
        case OtherFailure(error) => ConcludeFailure(error, seen, durable);
        case DocumentFailure(_, _, _, _) => ConcludeDocument(outcome, category, seen, durable);
      }
    }
  }

  lemma Reassociate(a: seq<Write>, b: seq<Write>, c: seq<Write>, d: seq<Write>)
    ensures a + b + c + d == a + (b + (c + d))
  {
  }

  lemma WrittenLast(file: File, r: Record, writes: seq<Write>)
    requires writes != [] && writes[|writes| - 1].Resolve?
    ensures Applied(file, r, writes).1.status == writes[|writes| - 1].status
    ensures Applied(file, r, writes).0 == Applied(file, r, writes[..|writes| - 1]).0
  {
  }
}

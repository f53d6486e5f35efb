/** Any sequence of calls to the journal's writers, on one journal from its beginning. */
module JournalScripts {
  import opened Outcomes
  import opened ExecutionState
  import opened ExecutionLedger
  import opened ExecutionJournal

  datatype Call =
    | Arms(authority: Authority, category: string)
    | MakesReady
    | StartsHelper(owner: Owner)
    | CommitsAttempt(owner: Owner)
    | ResumesOffice
    | RetriesCron
    | Succeeds(result: string)
    | ConfirmsMail(receipt: string)
    | Fails(error: string)
    | FailsRetryably(error: string)
    | LeavesUnknown(observed: Option<string>)

  /** The phase a call is for. */
  function Intended(call: Call): Phase {
    match call
    case Arms(_, _) => Armed
    case MakesReady => Ready
    case StartsHelper(_) => HelperStarted
    case CommitsAttempt(_) => AttemptCommitted
    case ResumesOffice => Ready
    case RetriesCron => Ready
    case Succeeds(_) => Succeeded
    case ConfirmsMail(_) => Succeeded
    case Fails(_) => Failed
    case FailsRetryably(_) => RetryableFailure
    case LeavesUnknown(_) => OutcomeUnknown
  }

  /** A confirmed receipt still reads submitted once it is cut. */
  predicate KeepsItsReceipt(receipt: string -> string, call: Call) {
    call.ConfirmsMail? && receipt(call.receipt) == SUBMITTED ==> receipt(Cut(call.receipt)) == SUBMITTED
  }

  predicate Readable(receipt: string -> string, file: File) {
    file == File([], false) || Load(receipt, file).Ok?
  }

  predicate EndsAttempt(call: Call) {
    Intended(call) in {Succeeded, Failed, RetryableFailure, OutcomeUnknown}
  }

  method PerformEnd(journal: ExecutionJournal, call: Call) returns (ok: bool)
    requires Readable(journal.receipt, journal.file) && EndsAttempt(call)
    modifies journal
    ensures KeepsItsReceipt(journal.receipt, call) ==> Readable(journal.receipt, journal.file)
    ensures KeepsItsReceipt(journal.receipt, call) && ok ==> InPhase(journal.receipt, journal.file, Intended(call))
    ensures !ok ==> journal.file == old(journal.file)
    ensures old(journal.file).events <= journal.file.events
  {
    if call.Succeeds? {
      ok := journal.Succeed(call.result);
    } else if call.ConfirmsMail? {
      ok := journal.ConfirmMailSucceeded(call.receipt);
    } else if call.Fails? {
      ok := journal.Fail(call.error);
    } else if call.FailsRetryably? {
      ok := journal.FailRetryably(call.error);
    } else {
      ok := journal.RecordUnknown(call.observed);
    }
  }

  method PerformStart(journal: ExecutionJournal, call: Call) returns (ok: bool)
    requires Readable(journal.receipt, journal.file) && !EndsAttempt(call)
    modifies journal
    ensures KeepsItsReceipt(journal.receipt, call) ==> Readable(journal.receipt, journal.file)
    ensures KeepsItsReceipt(journal.receipt, call) && ok ==> InPhase(journal.receipt, journal.file, Intended(call))
    ensures !ok ==> journal.file == old(journal.file)
    ensures old(journal.file).events <= journal.file.events
  {
    if call.Arms? {
      ok := journal.Arm(call.authority, call.category);
    } else if call.MakesReady? {
      ok := journal.MakeReady();
    } else if call.StartsHelper? {
      ok := journal.StartHelper(call.owner);
    } else if call.CommitsAttempt? {
      ok := journal.CommitAttempt(call.owner);
    } else if call.ResumesOffice? {
      ok := journal.ResumeOffice();
    } else {
      ok := journal.RetryCron();
    }
  }

  method Perform(journal: ExecutionJournal, call: Call) returns (ok: bool)
    requires Readable(journal.receipt, journal.file)
    modifies journal
    ensures KeepsItsReceipt(journal.receipt, call) ==> Readable(journal.receipt, journal.file)
    ensures KeepsItsReceipt(journal.receipt, call) && ok ==> InPhase(journal.receipt, journal.file, Intended(call))
    ensures !ok ==> journal.file == old(journal.file)
    ensures old(journal.file).events <= journal.file.events
  {
    if EndsAttempt(call) {
      ok := PerformEnd(journal, call);
    } else {
      ok := PerformStart(journal, call);
    }
  }

  /** Whatever is called in whatever order, the log stays one the reader accepts, the last call that was accepted left it in
      the phase it is for, and the attempts committed keep within the bounds of the category. */
  method Script(journal: ExecutionJournal, calls: seq<Call>) returns (done: seq<bool>)
    requires journal.file == File([], false)
    requires forall i :: 0 <= i < |calls| ==> KeepsItsReceipt(journal.receipt, calls[i])
    modifies journal
    ensures |done| == |calls| && Readable(journal.receipt, journal.file)
    ensures forall i :: 0 <= i < |calls| && done[i] && (forall j :: i < j < |calls| ==> !done[j]) ==>
              InPhase(journal.receipt, journal.file, Intended(calls[i]))
    ensures journal.file.events != [] ==>
              var log := journal.file.events;
              && (!IsOffice(log[0].category) && log[0].category != CRON ==> Commits(log) <= 1)
              && (log[0].category == CRON ==> Commits(log) <= 1 + RetryableFailures(log))
              && (IsOffice(log[0].category) ==> Commits(log) <= 1 + Edges(log, AttemptCommitted, Ready))
  {
    done := [];
    var n := 0;
    while n < |calls|
      invariant 0 <= n == |done| <= |calls| && Readable(journal.receipt, journal.file)
      invariant forall i :: 0 <= i < n && done[i] && (forall j :: i < j < n ==> !done[j]) ==>
                  InPhase(journal.receipt, journal.file, Intended(calls[i]))
    {
      ghost var before, earlier := journal.file, done;
      assert KeepsItsReceipt(journal.receipt, calls[n]);
      var ok := Perform(journal, calls[n]);
      done := done + [ok];
      forall i | 0 <= i < n + 1 && done[i] && (forall j :: i < j < n + 1 ==> !done[j])
        ensures InPhase(journal.receipt, journal.file, Intended(calls[i]))
      {
        if i < n {
          assert !done[n] && journal.file == before;
          assert earlier[i] && forall j :: i < j < n ==> earlier[j] == done[j];
        }
      }
      n := n + 1;
    }
    if journal.file.events != [] {
      AcceptedIsStructural(journal.receipt, journal.file.events);
      AttemptBound(journal.file.events);
    }
  }
}

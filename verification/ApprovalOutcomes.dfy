/** Where the outcomes in a journal come from: who may write them, and what they say about the action. */
module ApprovalOutcomes {
  import opened Outcomes
  import opened ExecutionState
  import opened ExecutionLedger
  import opened ExecutionJournal
  import opened ApprovalPlans
  import opened ApprovalProtocol
  import opened ApprovalLegality
  import opened ApprovalInvariant
  import opened ApprovalExclusion
  import opened ApprovalTheorems

  // -- how an action that ended is recorded -------------------------------------------

  /** An output that exists already and could be overwritten if the user wants it to. */
  predicate CouldOverwrite(category: string, outcome: ActionOutcome) {
    outcome.DocumentFailure? && outcome.outputExists && category in {"office_create", "office_job"}
  }

  /** A document error after which the attempt stays open, to be resumed. */
  predicate LeftOpen(category: string, outcome: ActionOutcome) {
    outcome.DocumentFailure? && outcome.retryable && "office_" <= category && !CouldOverwrite(category, outcome)
  }

  /** The text a failure is recorded with, unless queueing its follow-up failed too. */
  predicate FailsWith(category: string, outcome: ActionOutcome, text: string) {
    match outcome
    case Returned(_) => false
    case StoreBusy(error) => category != "cron" && text == error
    case OtherFailure(error) => text == error
    case DocumentFailure(error, _, _, followUp) =>
      && !LeftOpen(category, outcome)
      && text == if CouldOverwrite(category, outcome) && followUp.Err? then followUp.error else error
  }

  /** What event `e` says about the action it is recorded for, event by event. */
  ghost predicate Records(receipt: string -> string, category: string, outcome: ActionOutcome, e: Event) {
    match e
    case SucceededEvent(result) =>
      outcome.Returned? && result == Cut(outcome.result) && (category == "mail_send" ==> receipt(outcome.result) == "submitted")
    case UnknownEvent(observed) =>
      && outcome.Returned? && category == "mail_send" && receipt(outcome.result) != "submitted"
      && observed == Some(Cut(outcome.result))
    case RetryableEvent(error) => outcome.StoreBusy? && category == "cron" && error == Cut(outcome.error)
    case FailedEvent(error) => exists text :: FailsWith(category, outcome, text) && error == Cut(text)
    case _ => false
  }

  /** The recorded event is the one that says so; the attempt is left open for a resumable document error, and then only. */
  lemma OutcomeEventIff(receipt: string -> string, category: string, outcome: ActionOutcome, e: Event)
    ensures OutcomeEvent(receipt, category, outcome) == Some(e) <==> Records(receipt, category, outcome, e)
    ensures OutcomeEvent(receipt, category, outcome) == None <==> LeftOpen(category, outcome)
  {
    match outcome
    case StoreBusy(error) => assert category != CRON ==> FailsWith(category, outcome, error);
    case OtherFailure(error) => assert FailsWith(category, outcome, error);
    case DocumentFailure(error, _, _, followUp) =>
      var text := if CouldOverwrite(category, outcome) && followUp.Err? then followUp.error else error;
      assert !LeftOpen(category, outcome) ==> FailsWith(category, outcome, text);
    case Returned(_) =>
  }

  // -- who may write which outcome -------------------------------------------------------

  predicate Conclusive(e: Event) {
    e.SucceededEvent? || e.FailedEvent? || e.RetryableEvent? || e.UnknownEvent?
  }

  predicate Sealed(log: seq<Event>) {
    log != [] && log[0].ArmedEvent?
  }

  /** What somebody who did not run the action may append: never a failure, and, unless a mailbox was asked, a success only
      of a version without journals and otherwise that nothing is known. */
  predicate Unprompted(log: seq<Event>, e: Event) {
    && !e.FailedEvent? && !e.RetryableEvent?
    && (Sealed(log) && log[0].category != MAIL ==>
          && (e.SucceededEvent? ==> log[|log| - 1].CommittedEvent? && log[|log| - 1].owner.token == Local)
          && (e.UnknownEvent? ==> e.observed == None))
  }

  predicate AllUnprompted(log: seq<Event>, todo: seq<Write>)
    decreases |todo|
  {
    todo == [] ||
    if todo[0].Append? then Unprompted(log, todo[0].event) && AllUnprompted(log + [todo[0].event], todo[1..])
    else AllUnprompted(log, todo[1..])
  }

  /** The holder of the lock is a helper that records how its action ended. */
  predicate IsRecorder(w: World) {
    w.holder.Some? && w.holder.value.who.Process? && w.holder.value.who.token < |w.helpers|
    && w.helpers[w.holder.value.who.token].pc.Recording?
  }

  /** What a recorder still owes is the outcome of its own action, for an attempt that is open. */
  ghost predicate OwesOutcome(w: World) {
    IsRecorder(w) ==>
      var h := w.holder.value;
      && h.who.token in w.ended && OneAppend(h.todo)
      && (!NoAppends(h.todo) ==> Sealed(w.file.events) && w.file.events[|w.file.events| - 1].CommittedEvent?)
      && (forall i :: 0 <= i < |h.todo| && h.todo[i].Append? ==>
            Records(w.receipt, w.file.events[0].category, w.ended[h.who.token], h.todo[i].event))
  }

  ghost predicate EndedGood(w: World) {
    && (forall t :: t in w.ended ==>
          t < |w.helpers| && t in w.started && (w.helpers[t].pc.Finished? || w.helpers[t].pc.Recording? || w.helpers[t].pc.Exited?))
    && (forall t :: 0 <= t < |w.helpers| && w.helpers[t].pc.Acting? ==> t in w.started)
    && (forall t :: 0 <= t < |w.helpers| && w.helpers[t].pc.Finished? ==> t in w.ended && w.ended[t] == w.helpers[t].pc.outcome)
    && (forall t :: 0 <= t < |w.helpers| && w.helpers[t].pc.Recording? ==> t in w.ended)
  }

  predicate OfficeLog(log: seq<Event>) {
    Sealed(log) && IsOffice(log[0].category)
  }

  /** Helper `t` ended the way event `i` says, and, unless an Office attempt may have been taken over from a live helper,
      it is the helper that committed the attempt. */
  ghost predicate Concludes(w: World, i: nat, exact: bool, t: nat)
    requires 0 < i < |w.file.events| && w.file.events[0].ArmedEvent? && w.file.events[i - 1].CommittedEvent?
  {
    var log := w.file.events;
    && t in w.ended && Records(w.receipt, log[0].category, w.ended[t], log[i])
    && (exact || !OfficeLog(log) ==> log[i - 1].owner.token == Secret(t))
  }

  /** An outcome in the log is either one that nobody had to run the action for, or that of an action that ended. */
  ghost predicate Explained(w: World, i: nat, exact: bool)
    requires 0 < i < |w.file.events| && w.file.events[0].ArmedEvent?
  {
    var log := w.file.events;
    Unprompted(log[..i], log[i]) || (log[i - 1].CommittedEvent? && exists t :: Concludes(w, i, exact, t))
  }

  ghost predicate LogTold(w: World, exact: bool) {
    w.file.events != [] ==>
      && w.file.events[0].ArmedEvent?
      && forall i {:trigger Explained(w, i, exact)} :: 0 < i < |w.file.events| && Conclusive(w.file.events[i]) ==> Explained(w, i, exact)
  }

  /** A recorder that still owes its outcome owns the open attempt. */
  ghost predicate RecorderOwns(w: World) {
    IsRecorder(w) && !NoAppends(w.holder.value.todo) ==> Owns(w.file.events, w.holder.value.who.token)
  }

  ghost predicate Told(w: World, exact: bool) {
    && EndedGood(w) && OwesOutcome(w) && LogTold(w, exact)
    && (w.holder.Some? && !IsRecorder(w) ==> AllUnprompted(w.file.events, w.holder.value.todo))
    && (exact || !OfficeLog(w.file.events) ==> RecorderOwns(w))
  }

  // -- the plans of everybody but a recorder -----------------------------------------------

  lemma {:induction false} NoAppendsUnprompted(log: seq<Event>, todo: seq<Write>)
    requires NoAppends(todo)
    ensures AllUnprompted(log, todo)
    decreases |todo|
  {
    if todo != [] {
      NoAppendsUnprompted(log, todo[1..]);
    }
  }

  /** The log once the appends of `todo` are done. */
  function LogAfter(log: seq<Event>, todo: seq<Write>): seq<Event>
    decreases |todo|
  {
    if todo == [] then log
    else LogAfter(if todo[0].Append? then log + [todo[0].event] else log, todo[1..])
  }

  lemma {:induction false} NoAppendsKeepLog(log: seq<Event>, todo: seq<Write>)
    requires NoAppends(todo)
    ensures LogAfter(log, todo) == log
    decreases |todo|
  {
    if todo != [] {
      NoAppendsKeepLog(log, todo[1..]);
    }
  }

  lemma {:induction false} UnpromptedConcat(log: seq<Event>, a: seq<Write>, b: seq<Write>)
    requires AllUnprompted(log, a) && AllUnprompted(LogAfter(log, a), b)
    ensures AllUnprompted(log, a + b) && LogAfter(log, a + b) == LogAfter(LogAfter(log, a), b)
    decreases |a|
  {
    if a == [] {
      assert a + b == b;
    } else {
      UnpromptedConcat(if a[0].Append? then log + [a[0].event] else log, a[1..], b);
      assert (a + b)[1..] == a[1..] + b;
    }
  }

  lemma AppendUnprompted(log: seq<Event>, e: Event, rest: seq<Write>)
    requires Unprompted(log, e) && AllUnprompted(log + [e], rest)
    ensures AllUnprompted(log, [Append(e)] + rest)
    ensures LogAfter(log, [Append(e)] + rest) == LogAfter(log + [e], rest)
  {
    assert ([Append(e)] + rest)[1..] == rest;
  }

  lemma ConcludeUnprompted(receipt: string -> string, log: seq<Event>, e: Event, seen: Record, durable: Durable)
    requires Unprompted(log, e)
    ensures AllUnprompted(log, Conclude(receipt, log, e, seen, durable))
    ensures LogAfter(log, Conclude(receipt, log, e, seen, durable)) == log + [e]
  {
    var rest := match Replay(receipt, log + [e]) case Ok(s) => ProjectWrites(receipt, s, seen, durable) case Err(_) => [];
    if Replay(receipt, log + [e]).Ok? {
      ProjectNoAppends(receipt, Replay(receipt, log + [e]).value, seen, durable);
    }
    NoAppendsUnprompted(log + [e], rest);
    NoAppendsKeepLog(log + [e], rest);
    AppendUnprompted(log, e, rest);
  }

  lemma LaunchUnprompted(log: seq<Event>, token: nat, identity: Identity)
    ensures AllUnprompted(log, LaunchWrites(token, identity))
  {
    var launch := LaunchWrites(token, identity);
    assert launch[1..] == [launch[1]] && [launch[1]][1..] == [];
  }

  lemma ReadyUnprompted(log: seq<Event>, between: seq<Write>, token: nat, identity: Identity)
    requires NoAppends(between)
    ensures AllUnprompted(log, [Append(ReadyEvent)] + between + LaunchWrites(token, identity))
  {
    NoAppendsUnprompted(log + [ReadyEvent], between);
    NoAppendsKeepLog(log + [ReadyEvent], between);
    LaunchUnprompted(log + [ReadyEvent], token, identity);
    UnpromptedConcat(log + [ReadyEvent], between, LaunchWrites(token, identity));
    AppendUnprompted(log, ReadyEvent, between + LaunchWrites(token, identity));
    assert [Append(ReadyEvent)] + between + LaunchWrites(token, identity)
        == [Append(ReadyEvent)] + (between + LaunchWrites(token, identity));
  }

  lemma RecoverLoadedUnprompted(receipt: string -> string, file: File, r: Record, token: nat, a: Answers)
    ensures AllUnprompted(file.events, RecoverLoaded(receipt, file, r, token, a))
  {
    var log, p := file.events, RecoverLoaded(receipt, file, r, token, a);
    NoAppendsUnprompted(log, [FreezeWrite()]);
    match Load(receipt, file)
    case Err(_) =>
    case Ok(s) =>
      if s.authority == r.authority {
        match s.phase
        case Armed =>
          ReadyUnprompted(log, [Resolve(Executing, NO_DETAILS)], token, a.spawned);
          assert [Append(ReadyEvent)] + [Resolve(Executing, NO_DETAILS)] == [Append(ReadyEvent), Resolve(Executing, NO_DETAILS)];
        case Ready => LaunchUnprompted(log, token, a.spawned);
        case HelperStarted => LaunchUnprompted(log, token, a.spawned);
        case AttemptCommitted =>
          ConcludeUnprompted(receipt, log, UnknownEvent(None), r, a.durable);
          if s.category == MAIL {
            ConcludeUnprompted(receipt, log, ReconcileEvent(receipt, a.reconciled), r, a.durable);
          }
          ReadyUnprompted(log, [], token, a.spawned);
          assert [Append(ReadyEvent)] + [] == [Append(ReadyEvent)];
        case Succeeded | Failed | RetryableFailure | OutcomeUnknown =>
          ProjectNoAppends(receipt, s, r, a.durable);
          NoAppendsUnprompted(log, p);
      }
  }

  lemma MigrateUnprompted(receipt: string -> string, r: Record, token: nat, a: Answers)
    ensures AllUnprompted([], MigrateWrites(receipt, r, token, a))
  {
    if r.status == Approving {
      NoAppendsUnprompted([], [Resolve(Pending, NO_DETAILS)]);
    } else if r.status == Executing && r.payloadReadable {
      var category := r.authority.category;
      var sealed := [ArmedEvent(r.authority, category), ReadyEvent];
      var rest := if category == "office_job" then RecoverLoaded(receipt, File(sealed, false), r, token, a)
                  else
                    SettleWrites(receipt, sealed, LegacyEvent(receipt, category, a), r, a.durable)
                    + RecoverLoaded(receipt, File(sealed + [CommittedEvent(LOCAL_OWNER), LegacyEvent(receipt, category, a)], false), r, token, a);
      if category == "office_job" {
        RecoverLoadedUnprompted(receipt, File(sealed, false), r, token, a);
      } else {
        SettleUnprompted(receipt, sealed, r, token, a);
      }
      assert [] + [sealed[0]] == [sealed[0]] && [sealed[0]] + [sealed[1]] == sealed;
      AppendUnprompted([sealed[0]], sealed[1], rest);
      AppendUnprompted([], sealed[0], [Append(sealed[1])] + rest);
      assert [Append(sealed[0]), Append(sealed[1])] + rest == [Append(sealed[0])] + ([Append(sealed[1])] + rest);
    }
  }

  lemma SettleUnprompted(receipt: string -> string, sealed: seq<Event>, r: Record, token: nat, a: Answers)
    requires Sealed(sealed) && sealed[0].category == r.authority.category
    ensures var e := LegacyEvent(receipt, r.authority.category, a);
            AllUnprompted(sealed, SettleWrites(receipt, sealed, e, r, a.durable)
                                  + RecoverLoaded(receipt, File(sealed + [CommittedEvent(LOCAL_OWNER), e], false), r, token, a))
  {
    var e := LegacyEvent(receipt, r.authority.category, a);
    var commit := CommittedEvent(LOCAL_OWNER);
    var open := sealed + [commit];
    var conclude := Conclude(receipt, open, e, r, a.durable);
    ConcludeUnprompted(receipt, open, e, r, a.durable);
    AppendUnprompted(sealed, commit, conclude);
    assert open + [e] == sealed + [commit, e];
    RecoverLoadedUnprompted(receipt, File(sealed + [commit, e], false), r, token, a);
    UnpromptedConcat(sealed, [Append(commit)] + conclude, RecoverLoaded(receipt, File(sealed + [commit, e], false), r, token, a));
  }

  lemma RecheckUnprompted(receipt: string -> string, file: File, r: Record, a: Answers)
    ensures AllUnprompted(file.events, RecheckWrites(receipt, file, r, a))
  {
    var p := RecheckWrites(receipt, file, r, a);
    if a.reconciled.Observed? && RecheckAsks(receipt, file, r) && receipt(a.reconciled.receipt) == SUBMITTED
       && !(Load(receipt, file).value.phase == Succeeded) {
      var e := SucceededEvent(Cut(a.reconciled.receipt));
      var last := if Replay(receipt, file.events + [e]).Ok? then [Restamp(ConfirmedStamp(a.checkedAt))] else [];
      ConcludeUnprompted(receipt, file.events, e, r, a.durable);
      NoAppendsUnprompted(file.events + [e], last);
      UnpromptedConcat(file.events, Conclude(receipt, file.events, e, r, a.durable), last);
    } else {
      if Load(receipt, file).Ok? {
        ProjectNoAppends(receipt, Load(receipt, file).value, r, a.durable);
      }
      NoAppendsUnprompted(file.events, p);
    }
  }

  lemma SealUnprompted(receipt: string -> string, file: File, r: Record)
    ensures AllUnprompted(file.events, SealWrites(receipt, file, r))
  {
    var p := SealWrites(receipt, file, r);
    if |p| >= 2 {
      var last := [p[|p| - 1]];
      NoAppendsUnprompted(LogAfter(file.events, p[..|p| - 1]), last);
      if |p| == 3 {
        assert p[..2][1..] == [p[1]] && [p[1]][1..] == [];
      } else {
        assert p[..1][1..] == [];
      }
      UnpromptedConcat(file.events, p[..|p| - 1], last);
      assert p[..|p| - 1] + last == p;
    } else {
      NoAppendsUnprompted(file.events, p);
    }
  }

  lemma PrepareUnprompted(receipt: string -> string, file: File, r: Record, owner: Owner, durable: Durable)
    ensures AllUnprompted(file.events, PrepareWrites(receipt, file, r, owner, durable).0)
  {
    var log, p := file.events, PrepareWrites(receipt, file, r, owner, durable).0;
    if p == [Append(CommittedEvent(owner))] {
      AppendUnprompted(log, CommittedEvent(owner), []);
    } else if p == [Append(StartedEvent(owner)), Append(CommittedEvent(owner))] {
      AppendUnprompted(log + [StartedEvent(owner)], CommittedEvent(owner), []);
      AppendUnprompted(log, StartedEvent(owner), [Append(CommittedEvent(owner))]);
      assert p == [Append(StartedEvent(owner))] + [Append(CommittedEvent(owner))];
    } else {
      if Load(receipt, file).Ok? {
        ProjectNoAppends(receipt, Load(receipt, file).value, r, durable);
      }
      NoAppendsUnprompted(log, p);
    }
  }

  // -- every step keeps the account ----------------------------------------------------------

  lemma StillExplained(w: World, w': World, i: nat, exact: bool)
    requires 0 < i < |w.file.events| && w.file.events <= w'.file.events && w.file.events[0].ArmedEvent?
    requires w'.receipt == w.receipt && (forall t :: t in w.ended ==> t in w'.ended && w'.ended[t] == w.ended[t])
    requires Explained(w, i, exact)
    ensures Explained(w', i, exact)
  {
    var log, log' := w.file.events, w'.file.events;
    assert log'[..i] == log[..i] && log'[i] == log[i] && log'[i - 1] == log[i - 1];
    if !Unprompted(log[..i], log[i]) {
      var t :| Concludes(w, i, exact, t);
      assert Concludes(w', i, exact, t);
    }
  }

  lemma SameLogTold(w: World, w': World, exact: bool)
    requires LogTold(w, exact) && w'.file.events == w.file.events && w'.receipt == w.receipt
    requires forall t :: t in w.ended ==> t in w'.ended && w'.ended[t] == w.ended[t]
    ensures LogTold(w', exact)
  {
    forall i | 0 < i < |w'.file.events| && Conclusive(w'.file.events[i]) ensures Explained(w', i, exact) {
      assert Explained(w, i, exact);
      StillExplained(w, w', i, exact);
    }
  }

  /** One event more, appended by somebody who may append it. */
  lemma AppendTold(w: World, w': World, e: Event, exact: bool)
    requires LogTold(w, exact) && w'.file.events == w.file.events + [e] && w'.receipt == w.receipt && w'.ended == w.ended
    requires w'.file.events[0].ArmedEvent?
    requires w.file.events != [] && Conclusive(e) ==> Explained(w', |w.file.events|, exact)
    ensures LogTold(w', exact)
  {
    var log := w.file.events;
    forall i | 0 < i < |log| + 1 && Conclusive(w'.file.events[i]) ensures Explained(w', i, exact) {
      if i < |log| {
        assert Explained(w, i, exact);
        StillExplained(w, w', i, exact);
      }
    }
  }

  lemma NextExplained(w: World, w': World, e: Event, exact: bool)
    requires Told(w, exact) && w.holder.Some? && w.holder.value.todo != [] && w.holder.value.todo[0] == Append(e)
    requires Sealed(w.file.events) && w' == Perform(w, w.holder.value.todo[0]) && Conclusive(e)
    ensures Explained(w', |w.file.events|, exact)
  {
    var i := |w.file.events|;
    assert w'.file.events[..i] == w.file.events && w'.file.events[i] == e;
    if IsRecorder(w) {
      assert !NoAppends(w.holder.value.todo);
      assert Concludes(w', i, exact, w.holder.value.who.token);
    }
  }

  /** One write of whoever holds the lock. */
  lemma PerformTold(w: World, exact: bool)
    requires Invariant(w) && Told(w, exact) && w.holder.Some? && w.holder.value.todo != []
    ensures LogTold(Perform(w, w.holder.value.todo[0]), exact) && EndedGood(Perform(w, w.holder.value.todo[0]))
  {
    var x := w.holder.value.todo[0];
    var w' := Perform(w, x);
    if x.Append? {
      AppendIsSealed(w, x.event);
      if w.file.events != [] && Conclusive(x.event) {
        NextExplained(w, w', x.event, exact);
      }
      AppendTold(w, w', x.event, exact);
    } else {
      SameLogTold(w, w', exact);
    }
    PerformEnded(w, x);
  }

  lemma AppendIsSealed(w: World, e: Event)
    requires Invariant(w) && w.holder.Some? && w.holder.value.todo != [] && w.holder.value.todo[0] == Append(e)
    ensures (w.file.events + [e])[0].ArmedEvent?
    ensures Structural(w.file.events + [e])
  {
    assert LegalWrite(ViewOf(w), w.holder.value.who, Append(e));
  }

  lemma PerformEnded(w: World, x: Write)
    requires EndedGood(w)
    ensures EndedGood(Perform(w, x))
  {
  }

  lemma WriteNextTold(w: World, exact: bool)
    requires Invariant(w) && Told(w, exact) && Enabled(w, WriteNext)
    ensures Told(Do(w, WriteNext), exact)
  {
    var h, w' := w.holder.value, Do(w, WriteNext);
    var mid := Perform(w, h.todo[0]);
    PerformTold(w, exact);
    SameLogTold(mid, w', exact);
    RestOwed(h.todo);
    WriteNextOwes(w, exact);
  }

  /** What is still owed once the first write is done. */
  lemma WriteNextOwes(w: World, exact: bool)
    requires Invariant(w) && Told(w, exact) && Enabled(w, WriteNext)
    ensures var w' := Do(w, WriteNext);
      && OwesOutcome(w')
      && (!IsRecorder(w') ==> AllUnprompted(w'.file.events, w'.holder.value.todo))
      && (exact || !OfficeLog(w'.file.events) ==> RecorderOwns(w'))
  {
    RestOwed(w.holder.value.todo);
    assert IsRecorder(Do(w, WriteNext)) <==> IsRecorder(w);
    if IsRecorder(w) {
      RecorderWrites(w, exact);
    }
  }

  lemma RecorderWrites(w: World, exact: bool)
    requires OwesOutcome(w) && Enabled(w, WriteNext) && IsRecorder(w)
    requires exact || !OfficeLog(w.file.events) ==> RecorderOwns(w)
    ensures var w' := Do(w, WriteNext); OwesOutcome(w') && (exact || !OfficeLog(w'.file.events) ==> RecorderOwns(w'))
  {
    RestOwed(w.holder.value.todo);
  }

  lemma RestOwed(todo: seq<Write>)
    requires todo != []
    ensures NoAppends(todo) ==> NoAppends(todo[1..])
    ensures OneAppend(todo) ==> OneAppend(todo[1..]) && (todo[0].Append? ==> NoAppends(todo[1..]))
  {
  }

  /** Once the lock is let go nothing is owed; whoever let it go may have exited. */
  lemma FreeTold(hit: World, w': World, exact: bool)
    requires LogTold(hit, exact) && EndedGood(hit)
    requires w'.file.events == hit.file.events && w'.receipt == hit.receipt && w'.ended == hit.ended && w'.started == hit.started
    requires w'.holder.None? && |w'.helpers| == |hit.helpers|
    requires forall t :: 0 <= t < |hit.helpers| ==> w'.helpers[t] == hit.helpers[t] || w'.helpers[t].pc.Exited? || w'.helpers[t].pc.Prepared?
    requires forall t :: 0 <= t < |hit.helpers| && w'.helpers[t].pc.Prepared? && w'.helpers[t] != hit.helpers[t] ==> t !in hit.ended
    ensures Told(w', exact)
  {
    SameLogTold(hit, w', exact);
  }

  lemma LossTold(w: World, s: Step, exact: bool)
    requires Invariant(w) && Told(w, exact) && Enabled(w, s) && (s.WriteFails? || s.OperatorDies?)
    ensures Told(Do(w, s), exact)
  {
    var hit := Interrupt(w, w.holder.value.todo, s.fault);
    InterruptTold(w, s.fault, exact);
    LossExits(w, s);
    FreeTold(hit, Do(w, s), exact);
  }

  /** A region that breaks off leaves what it wrote, and at most makes a helper exit. */
  lemma LossExits(w: World, s: Step)
    requires Enabled(w, s) && (s.WriteFails? || s.OperatorDies? || (s.HelperDies? && Holds(w, s.t)))
    ensures FaultFits(w.holder.value.todo, s.fault)
    ensures var (hit, w') := (Interrupt(w, w.holder.value.todo, s.fault), Do(w, s));
      && w'.file == hit.file && w'.receipt == hit.receipt && w'.ended == hit.ended && w'.started == hit.started
      && w'.holder.None? && |w'.helpers| == |hit.helpers|
      && forall t :: 0 <= t < |hit.helpers| ==> w'.helpers[t] == hit.helpers[t] || w'.helpers[t].pc.Exited?
  {
  }

  lemma InterruptTold(w: World, fault: Fault, exact: bool)
    requires Invariant(w) && Told(w, exact) && w.holder.Some? && FaultFits(w.holder.value.todo, fault)
    ensures var hit := Interrupt(w, w.holder.value.todo, fault); LogTold(hit, exact) && EndedGood(hit)
  {
    if fault == Whole {
      PerformTold(w, exact);
    } else {
      SameLogTold(w, Interrupt(w, w.holder.value.todo, fault), exact);
    }
  }

  lemma DeathTold(w: World, t: nat, fault: Fault, exact: bool)
    requires Invariant(w) && Told(w, exact) && Enabled(w, HelperDies(t, fault))
    ensures Told(Do(w, HelperDies(t, fault)), exact)
  {
    var w' := Do(w, HelperDies(t, fault));
    if Holds(w, t) {
      InterruptTold(w, fault, exact);
      LossExits(w, HelperDies(t, fault));
      FreeTold(Interrupt(w, w.holder.value.todo, fault), w', exact);
    } else {
      OtherDies(w, t, exact);
    }
  }

  lemma OtherDies(w: World, t: nat, exact: bool)
    requires Invariant(w) && Told(w, exact) && t < |w.helpers| && !Holds(w, t)
    ensures Told(At(w, t, Exited), exact)
  {
    SameLogTold(w, At(w, t, Exited), exact);
  }

  lemma ReleaseTold(w: World, exact: bool)
    requires Invariant(w) && Told(w, exact) && Enabled(w, Release)
    ensures Told(Do(w, Release), exact)
  {
    ReleaseFrees(w);
    FreeTold(w, Do(w, Release), exact);
  }

  lemma ReleaseFrees(w: World)
    requires Invariant(w) && EndedGood(w) && Enabled(w, Release)
    ensures var w' := Do(w, Release);
      && w'.file == w.file && w'.receipt == w.receipt && w'.ended == w.ended && w'.started == w.started
      && w'.holder.None? && |w'.helpers| == |w.helpers|
      && (forall t :: 0 <= t < |w.helpers| ==> w'.helpers[t] == w.helpers[t] || w'.helpers[t].pc.Exited? || w'.helpers[t].pc.Prepared?)
      && (forall t :: 0 <= t < |w.helpers| && w'.helpers[t].pc.Prepared? && w'.helpers[t] != w.helpers[t] ==> t !in w.ended)
  {
  }

  lemma ActionTold(w: World, s: Step, exact: bool)
    requires Invariant(w) && Told(w, exact) && Enabled(w, s) && (s.StartAction? || s.EndAction?)
    ensures Told(Do(w, s), exact)
  {
    assert HelperGood(w, s.t);
    ActionEnded(w, s);
    SameLogTold(w, Do(w, s), exact);
  }

  lemma ActionEnded(w: World, s: Step)
    requires EndedGood(w) && Enabled(w, s) && (s.StartAction? || s.EndAction?)
    ensures EndedGood(Do(w, s)) && forall t :: t in w.ended ==> t in Do(w, s).ended && Do(w, s).ended[t] == w.ended[t]
  {
  }

  lemma AsideTold(w: World, s: Step, exact: bool)
    requires Told(w, exact) && Enabled(w, s) && (s.ResumeEnds? || s.FreezeLate? || s.EditRecord?)
    ensures Told(Do(w, s), exact)
  {
    SameLogTold(w, Do(w, s), exact);
  }

  lemma OperatorTold(w: World, s: Step, exact: bool)
    requires Invariant(w) && Told(w, exact) && Enabled(w, s)
    requires s.Claim? || s.Restore? || s.Reject? || s.Seal? || s.Recover? || s.Recheck? || s.Resume?
    ensures Told(Do(w, s), exact)
  {
    var w' := Do(w, s);
    var log, todo := w.file.events, w'.holder.value.todo;
    SameLogTold(w, w', exact);
    if s.Recover? {
      RecoverUnprompted(w, s.a);
    } else if s.Recheck? {
      RecheckUnprompted(w.receipt, w.file, w.record, s.a);
    } else if s.Seal? {
      SealUnprompted(w.receipt, w.file, w.record);
    } else {
      NoAppendsUnprompted(log, todo);
    }
  }

  lemma RecoverUnprompted(w: World, a: Answers)
    ensures AllUnprompted(w.file.events, RecoverWrites(w.receipt, w.file, w.record, |w.helpers|, a))
  {
    if w.record.status != Frozen {
      if Exists(w.file) {
        RecoverLoadedUnprompted(w.receipt, w.file, w.record, |w.helpers|, a);
      } else {
        MigrateUnprompted(w.receipt, w.record, |w.helpers|, a);
      }
    }
  }

  lemma PrepareTold(w: World, t: nat, durable: Durable, exact: bool)
    requires Invariant(w) && Told(w, exact) && Enabled(w, Prepare(t, durable))
    ensures Told(Do(w, Prepare(t, durable)), exact)
  {
    var w' := Do(w, Prepare(t, durable));
    SameLogTold(w, w', exact);
    PrepareUnprompted(w.receipt, w.file, w.record, Owner(Secret(t), w.helpers[t].identity), durable);
  }

  /** What a recorder sets out to write is the outcome of its own action, and only for an attempt that is still open. */
  lemma RecordOwes(w: World, t: nat, durable: Durable)
    requires Invariant(w) && EndedGood(w) && Enabled(w, RecordOutcome(t, durable))
    ensures OwesOutcome(Do(w, RecordOutcome(t, durable)))
  {
    var pc := w.helpers[t].pc;
    assert HelperGood(w, t);
    OutcomeAppendsOnce(w.receipt, w.file, pc.seen.record, pc.seen.category, pc.outcome, durable);
    OutcomeAppends(w.receipt, w.file, pc.seen.record, pc.seen.category, pc.outcome, durable);
    if InPhase(w.receipt, w.file, AttemptCommitted) {
      OpenEndsInCommit(w.receipt, w.file);
    }
    Owing(Do(w, RecordOutcome(t, durable)), t);
  }

  lemma Owing(w: World, t: nat)
    requires Holds(w, t) && t in w.ended && OneAppend(w.holder.value.todo)
    requires !NoAppends(w.holder.value.todo) ==> Sealed(w.file.events) && w.file.events[|w.file.events| - 1].CommittedEvent?
    requires forall i :: 0 <= i < |w.holder.value.todo| && w.holder.value.todo[i].Append? ==>
      w.file.events != [] && w.file.events[0].ArmedEvent?
      && Records(w.receipt, w.file.events[0].category, w.ended[t], w.holder.value.todo[i].event)
    ensures OwesOutcome(w)
  {
  }

  lemma OpenEndsInCommit(receipt: string -> string, file: File)
    requires InPhase(receipt, file, AttemptCommitted)
    ensures Sealed(file.events) && file.events[|file.events| - 1].CommittedEvent?
  {
  }

  lemma OutcomeAppends(receipt: string -> string, file: File, seen: Record, category: string, outcome: ActionOutcome, durable: Durable)
    ensures var todo := OutcomeWrites(receipt, file, seen, category, outcome, durable);
      && (!NoAppends(todo) ==> InPhase(receipt, file, AttemptCommitted))
      && (forall i :: 0 <= i < |todo| && todo[i].Append? ==> Records(receipt, category, outcome, todo[i].event))
  {
    var e := OutcomeEvent(receipt, category, outcome);
    if e.Some? {
      OutcomeEventIff(receipt, category, outcome, e.value);
      ConcludeAppendsFirst(receipt, file.events, e.value, seen, durable);
      var rest := AttemptWrites(receipt, file, e.value, seen, durable);
      assert rest != [] ==> rest[0] == Append(e.value);
    }
  }

  lemma RecordTold(w: World, t: nat, durable: Durable, exact: bool)
    requires Invariant(w) && Told(w, exact) && Enabled(w, RecordOutcome(t, durable))
    requires exact || !OfficeLog(w.file.events) ==> RecorderOwns(Do(w, RecordOutcome(t, durable)))
    ensures Told(Do(w, RecordOutcome(t, durable)), exact)
  {
    SameLogTold(w, Do(w, RecordOutcome(t, durable)), exact);
    RecordOwes(w, t, durable);
  }

  lemma StepTold(w: World, s: Step, exact: bool)
    requires Invariant(w) && Told(w, exact) && Enabled(w, s)
    requires s.RecordOutcome? && (exact || !OfficeLog(w.file.events)) ==> RecorderOwns(Do(w, s))
    ensures Told(Do(w, s), exact)
  {
    match s
    case Claim | Restore | Reject | Seal | Recover(_) | Recheck(_) | Resume => OperatorTold(w, s, exact);
    case ResumeEnds(_) | FreezeLate | EditRecord(_) => AsideTold(w, s, exact);
    case Prepare(t, durable) => PrepareTold(w, t, durable, exact);
    case StartAction(_) | EndAction(_, _) => ActionTold(w, s, exact);
    case RecordOutcome(t, durable) => RecordTold(w, t, durable, exact);
    case WriteNext => WriteNextTold(w, exact);
    case Release => ReleaseTold(w, exact);
    case WriteFails(_) | OperatorDies(_) => LossTold(w, s, exact);
    case HelperDies(t, fault) => DeathTold(w, t, fault, exact);
  }

  // -- whose attempt it is, where none can be resumed ---------------------------------------------

  /** The last attempt of the log is `t`'s, and since then it only succeeded or became unknown. */
  ghost predicate Mine(log: seq<Event>, t: nat) {
    exists c :: IsLastCommit(log, t, c)
  }

  predicate IsLastCommit(log: seq<Event>, t: nat, c: nat) {
    && c < |log| && log[c].CommittedEvent? && log[c].owner.token == Secret(t)
    && forall k :: c < k < |log| ==> log[k].SucceededEvent? || log[k].UnknownEvent?
  }

  /** Whoever is inside an attempt is inside the last one; only an Office attempt can be taken over. */
  ghost predicate Kept(w: World) {
    && (!OfficeLog(w.file.events) ==> forall t :: 0 <= t < |w.helpers| && InAttempt(w, t) ==> Mine(w.file.events, t))
    && (w.holder.Some? && w.holder.value.who.Process? && w.holder.value.who.token < |w.helpers|
        && w.helpers[w.holder.value.who.token].pc.Preparing? && w.holder.value.verdict == Proceed ==>
          Owns(ViewAfter(ViewOf(w), w.holder.value.todo).log, w.holder.value.who.token))
  }

  lemma MineStays(log: seq<Event>, t: nat, e: Event)
    requires Structural(log) && Structural(log + [e]) && !OfficeLog(log) && Mine(log, t)
    requires !e.FailedEvent? && !e.RetryableEvent?
    ensures Mine(log + [e], t)
  {
    var c :| IsLastCommit(log, t, c);
    assert (log + [e])[..|log|] == log;
    assert IsLastCommit(log + [e], t, c);
  }

  lemma OwnsIsMine(log: seq<Event>, t: nat)
    requires Owns(log, t)
    ensures Mine(log, t)
  {
    assert IsLastCommit(log, t, |log| - 1);
  }

  /** Two last attempts are one; and an open one ends the log. */
  lemma MineIsOpen(log: seq<Event>, t: nat)
    requires Mine(log, t) && log[|log| - 1].CommittedEvent?
    ensures Owns(log, t)
  {
  }

  lemma WriteKeepsMine(w: World, t: nat)
    requires Invariant(w) && Told(w, false) && Kept(w) && Enabled(w, WriteNext)
    requires t < |Do(w, WriteNext).helpers| && InAttempt(Do(w, WriteNext), t) && !OfficeLog(Do(w, WriteNext).file.events)
    ensures Mine(Do(w, WriteNext).file.events, t)
  {
    var x := w.holder.value.todo[0];
    if Holds(w, t) && w.helpers[t].pc.Preparing? {
      PreparerIsMine(w, t);
    } else {
      WriterStays(w, t);
      if x.Append? {
        AppendIsSealed(w, x.event);
        AppendKeepsMine(w, x.event, t);
      }
    }
  }

  lemma PreparerIsMine(w: World, t: nat)
    requires Kept(w) && Enabled(w, WriteNext) && t < |w.helpers| && Holds(w, t) && w.helpers[t].pc.Preparing?
    requires t < |Do(w, WriteNext).helpers| && InAttempt(Do(w, WriteNext), t)
    ensures Mine(Do(w, WriteNext).file.events, t)
  {
    var h, w' := w.holder.value, Do(w, WriteNext);
    PerformView(w, h.todo[0]);
    assert ViewOf(w') == ViewStep(ViewOf(w), h.todo[0]);
    NoAppendsSameLog(ViewOf(w'), h.todo[1..]);
    OwnsIsMine(w'.file.events, t);
  }

  /** Who is inside an attempt after a write was inside before it, and did not append anything itself. */
  lemma WriterStays(w: World, t: nat)
    requires Invariant(w) && OwesOutcome(w) && Enabled(w, WriteNext)
    requires t < |Do(w, WriteNext).helpers| && InAttempt(Do(w, WriteNext), t)
    requires !(Holds(w, t) && t < |w.helpers| && w.helpers[t].pc.Preparing?)
    ensures t < |w.helpers| && InAttempt(w, t) && (w.holder.value.todo[0].Append? ==> !Holds(w, t))
    ensures w.file.events != [] ==> OfficeLog(Do(w, WriteNext).file.events) == OfficeLog(w.file.events)
  {
    RestOwed(w.holder.value.todo);
  }

  lemma AppendKeepsMine(w: World, e: Event, t: nat)
    requires Told(w, false) && Kept(w) && Enabled(w, WriteNext) && w.holder.value.todo[0] == Append(e)
    requires t < |w.helpers| && InAttempt(w, t) && !Holds(w, t)
    requires (w.file.events == [] || Structural(w.file.events)) && Structural(w.file.events + [e])
    requires w.file.events != [] ==> !OfficeLog(w.file.events)
    ensures Mine(w.file.events + [e], t)
  {
    if IsRecorder(w) {
      RecorderIsOwner(w, t);
    }
    MineStays(w.file.events, t, e);
  }

  lemma RecorderIsOwner(w: World, t: nat)
    requires IsRecorder(w) && RecorderOwns(w) && Mine(w.file.events, t)
    requires w.holder.value.todo != [] && w.holder.value.todo[0].Append?
    ensures Holds(w, t)
  {
    assert !NoAppends(w.holder.value.todo);
    MineIsOpen(w.file.events, t);
  }

  lemma WriteNextKept(w: World)
    requires Invariant(w) && Told(w, false) && Kept(w) && Enabled(w, WriteNext)
    ensures Kept(Do(w, WriteNext))
  {
    var h, w' := w.holder.value, Do(w, WriteNext);
    PerformView(w, h.todo[0]);
    assert ViewOf(w') == ViewStep(ViewOf(w), h.todo[0]);
    forall t | 0 <= t < |w'.helpers| && InAttempt(w', t) && !OfficeLog(w'.file.events) ensures Mine(w'.file.events, t) {
      WriteKeepsMine(w, t);
    }
  }

  /** A region that starts changes neither the log nor who is inside an attempt, but for the helper that starts it. */
  lemma OperatorKept(w: World, s: Step)
    requires Invariant(w) && Kept(w) && Enabled(w, s)
    requires s.Claim? || s.Restore? || s.Reject? || s.Seal? || s.Recover? || s.Recheck? || s.Resume?
    ensures Kept(Do(w, s))
  {
    var w' := Do(w, s);
    forall t | 0 <= t < |w'.helpers| && InAttempt(w', t) ensures InAttempt(w, t) {
    }
  }

  lemma PrepareKept(w: World, t: nat, durable: Durable)
    requires Invariant(w) && Kept(w) && Enabled(w, Prepare(t, durable))
    ensures Kept(Do(w, Prepare(t, durable)))
  {
    var w' := Do(w, Prepare(t, durable));
    var h := w'.holder.value;
    PrepareOwns(w, t, durable, h.todo, h.verdict);
    SameIdentities(w, t, w'.helpers[t].pc);
    assert ViewOf(w') == ViewOf(w);
    forall u | 0 <= u < |w'.helpers| && InAttempt(w', u) && !OfficeLog(w.file.events) ensures Mine(w.file.events, u) {
      if u == t {
        NoAppendsSameLog(ViewOf(w), h.todo);
        OwnsIsMine(w.file.events, t);
      } else {
        assert InAttempt(w, u);
      }
    }
  }

  lemma RecordKept(w: World, t: nat, durable: Durable)
    requires Invariant(w) && Kept(w) && Enabled(w, RecordOutcome(t, durable))
    ensures Kept(Do(w, RecordOutcome(t, durable)))
    ensures !OfficeLog(w.file.events) ==> RecorderOwns(Do(w, RecordOutcome(t, durable)))
  {
    var w', pc := Do(w, RecordOutcome(t, durable)), w.helpers[t].pc;
    OutcomeAppends(w.receipt, w.file, pc.seen.record, pc.seen.category, pc.outcome, durable);
    assert InAttempt(w, t);
    forall u | 0 <= u < |w'.helpers| && InAttempt(w', u) ensures InAttempt(w, u) {
    }
    if !OfficeLog(w.file.events) && !NoAppends(w'.holder.value.todo) {
      MineIsOpen(w.file.events, t);
    }
  }

  lemma ReleaseKept(w: World)
    requires Invariant(w) && Kept(w) && Enabled(w, Release)
    ensures Kept(Do(w, Release))
  {
    var w' := Do(w, Release);
    forall t | 0 <= t < |w'.helpers| && InAttempt(w', t) ensures InAttempt(w, t) {
      assert HelperGood(w, t);
    }
  }

  lemma AsideKept(w: World, s: Step)
    requires Invariant(w) && Kept(w) && Enabled(w, s)
    requires s.StartAction? || s.EndAction? || s.ResumeEnds? || s.FreezeLate? || s.EditRecord?
    ensures Kept(Do(w, s))
  {
    var w' := Do(w, s);
    assert ViewOf(w').helpers == ViewOf(w).helpers;
    forall t | 0 <= t < |w'.helpers| && InAttempt(w', t) ensures InAttempt(w, t) {
    }
    if w.holder.Some? {
      LegalObservesMore(ViewOf(w), w.holder.value.who, w.holder.value.todo, w'.observed);
      assert ViewOf(w') == ViewOf(w).(observed := w'.observed);
    }
  }

  lemma LossKept(w: World, s: Step)
    requires Invariant(w) && Told(w, false) && Kept(w) && Enabled(w, s)
    requires s.WriteFails? || s.OperatorDies? || (s.HelperDies? && Holds(w, s.t))
    ensures Kept(Do(w, s))
  {
    var w' := Do(w, s);
    LossExits(w, s);
    forall t | 0 <= t < |w'.helpers| && InAttempt(w', t) && !OfficeLog(w'.file.events) ensures Mine(w'.file.events, t) {
      LossKeepsMine(w, s, t);
    }
  }

  lemma LossKeepsMine(w: World, s: Step, t: nat)
    requires Invariant(w) && Told(w, false) && Kept(w) && Enabled(w, s)
    requires s.WriteFails? || s.OperatorDies? || (s.HelperDies? && Holds(w, s.t))
    requires t < |Do(w, s).helpers| && InAttempt(Do(w, s), t) && !OfficeLog(Do(w, s).file.events)
    ensures Mine(Do(w, s).file.events, t)
  {
    var w' := Do(w, s);
    LossOfMine(w, s, t);
    if s.fault == Whole && w.holder.value.todo[0].Append? {
      AppendIsSealed(w, w.holder.value.todo[0].event);
      AppendKeepsMine(w, w.holder.value.todo[0].event, t);
    }
  }

  /** Whoever is still inside an attempt after a region broke off is not the one who held the lock. */
  lemma LossOfMine(w: World, s: Step, t: nat)
    requires Invariant(w) && Enabled(w, s)
    requires s.WriteFails? || s.OperatorDies? || (s.HelperDies? && Holds(w, s.t))
    requires t < |Do(w, s).helpers| && InAttempt(Do(w, s), t)
    ensures t < |w.helpers| && InAttempt(w, t) && !Holds(w, t) && w.helpers[t] == Do(w, s).helpers[t]
    ensures Do(w, s).file.events
         == if s.fault == Whole && w.holder.value.todo[0].Append? then w.file.events + [w.holder.value.todo[0].event] else w.file.events
    ensures w.file.events != [] ==> OfficeLog(Do(w, s).file.events) == OfficeLog(w.file.events)
  {
    LossExits(w, s);
  }

  lemma DeathKept(w: World, t: nat, fault: Fault)
    requires Invariant(w) && Told(w, false) && Kept(w) && Enabled(w, HelperDies(t, fault))
    ensures Kept(Do(w, HelperDies(t, fault)))
  {
    if Holds(w, t) {
      LossKept(w, HelperDies(t, fault));
    } else {
      var w' := At(w, t, Exited);
      SameIdentities(w, t, Exited);
      assert ViewOf(w') == ViewOf(w);
      forall u | 0 <= u < |w'.helpers| && InAttempt(w', u) ensures InAttempt(w, u) {
      }
    }
  }

  lemma StepKept(w: World, s: Step)
    requires Invariant(w) && Told(w, false) && Kept(w) && Enabled(w, s)
    ensures Told(Do(w, s), false) && Kept(Do(w, s))
  {
    match s {
      case Claim | Restore | Reject | Seal | Recover(_) | Recheck(_) | Resume => OperatorKept(w, s);
      case Prepare(t, durable) => PrepareKept(w, t, durable);
      case StartAction(_) | EndAction(_, _) | ResumeEnds(_) | FreezeLate | EditRecord(_) => AsideKept(w, s);
      case RecordOutcome(t, durable) => RecordKept(w, t, durable);
      case WriteNext => WriteNextKept(w);
      case Release => ReleaseKept(w);
      case WriteFails(_) | OperatorDies(_) => LossKept(w, s);
      case HelperDies(t, fault) => DeathKept(w, t, fault);
    }
    StepTold(w, s, false);
  }

  lemma {:induction false} RunKept(w: World, run: seq<Step>)
    requires Invariant(w) && Told(w, false) && Kept(w) && Possible(w, run)
    ensures Told(After(w, run), false) && Kept(After(w, run)) && Invariant(After(w, run))
    decreases |run|
  {
    if run != [] {
      StepKept(w, run[0]);
      StepKeeps(w, run[0]);
      RunKept(Do(w, run[0]), run[1..]);
    }
  }

  lemma {:induction false} ExactRunTold(w: World, run: seq<Step>)
    requires Exclusive(w) && Told(w, true) && Possible(w, run) && ExactRun(w, run)
    ensures Told(After(w, run), true) && Invariant(After(w, run))
    decreases |run|
  {
    if run != [] {
      ExactStepKeeps(w, run[0]);
      if run[0].RecordOutcome? {
        assert var w' := Do(w, run[0]); !NoAppends(w'.holder.value.todo) ==> InAttempt(w', run[0].t);
      }
      StepTold(w, run[0], true);
      ExactRunTold(Do(w, run[0]), run[1..]);
    }
  }

  // -- what every journal says ------------------------------------------------------------------------

  /** What outcome `i` of the log says of the actions that ended: a failure is that of the action of helper `t`, and so is a
      success for which no mailbox was asked, unless a version without journals had it. */
  ghost predicate SpeaksFor(w: World, i: nat, t: nat, own: bool) {
    var log := w.file.events;
    && Sealed(log) && 0 < i < |log| && log[i - 1].CommittedEvent?
    && t in w.ended && t in w.started
    && (own ==> log[i - 1].owner.token == Secret(t))
    && match log[i]
       case SucceededEvent(result) => exists text :: w.ended[t] == Returned(text) && result == Cut(text)
       case FailedEvent(error) => !w.ended[t].Returned? && exists text :: FailsWith(log[0].category, w.ended[t], text) && error == Cut(text)
       case RetryableEvent(error) => exists text :: w.ended[t] == StoreBusy(text) && error == Cut(text)
       case _ => false
  }

  lemma ExplainedSpeaks(w: World, i: nat, exact: bool) returns (t: nat)
    requires Told(w, exact) && 0 < i < |w.file.events| && Sealed(w.file.events)
    requires w.file.events[i].FailedEvent? || w.file.events[i].RetryableEvent?
             || (w.file.events[i].SucceededEvent? && w.file.events[0].category != MAIL
                 && !(w.file.events[i - 1].CommittedEvent? && w.file.events[i - 1].owner.token == Local))
    ensures SpeaksFor(w, i, t, exact || !OfficeLog(w.file.events))
  {
    var log := w.file.events;
    assert Explained(w, i, exact);
    assert log[..i][|log[..i]| - 1] == log[i - 1];
    t :| Concludes(w, i, exact, t);
  }

  lemma UnknownSaysNothing(w: World, i: nat, exact: bool)
    requires Told(w, exact) && 0 < i < |w.file.events| && Sealed(w.file.events) && w.file.events[0].category != MAIL
    requires w.file.events[i].UnknownEvent?
    ensures w.file.events[i].observed == None
  {
    assert Explained(w, i, exact);
  }

  lemma FreshIsTold(w: World)
    requires Init(w)
    ensures Told(w, true) && Told(w, false) && Kept(w) && Exclusive(w)
  {
    InitHolds(w);
  }

  /** Over every run, with every crash, and however badly live owners are recognized: a failure is journalled only for an
      action that was started, ended, and did not return, with the text it ended with; a success only for one that returned,
      with its result, or for a mail, or on an old receipt; and only a mail is unknown with a reason. If the attempt cannot be
      resumed it is the action of the very helper that committed the attempt. */
  lemma OutcomesAreTrue(w0: World, run: seq<Step>, i: nat) returns (t: nat)
    requires Init(w0) && Possible(w0, run)
    requires 0 < i < |After(w0, run).file.events|
    ensures var w := After(w0, run);
            var log := w.file.events;
            && log[0].ArmedEvent?
            && (log[i].FailedEvent? || log[i].RetryableEvent? ==> SpeaksFor(w, i, t, !IsOffice(log[0].category)))
            && (log[0].category != MAIL ==>
                  && (log[i].SucceededEvent? ==>
                        (log[i - 1].CommittedEvent? && log[i - 1].owner.token == Local) || SpeaksFor(w, i, t, !IsOffice(log[0].category)))
                  && (log[i].UnknownEvent? ==> log[i].observed == None))
  {
    FreshIsTold(w0);
    InitHolds(w0);
    RunKept(w0, run);
    t := TrueOutcome(After(w0, run), i, false);
  }

  lemma TrueOutcome(w: World, i: nat, exact: bool) returns (t: nat)
    requires Invariant(w) && Told(w, exact) && 0 < i < |w.file.events|
    ensures var log := w.file.events;
            && log[0].ArmedEvent?
            && (log[i].FailedEvent? || log[i].RetryableEvent? ==> SpeaksFor(w, i, t, exact || !IsOffice(log[0].category)))
            && (log[0].category != MAIL ==>
                  && (log[i].SucceededEvent? ==>
                        (log[i - 1].CommittedEvent? && log[i - 1].owner.token == Local)
                        || SpeaksFor(w, i, t, exact || !IsOffice(log[0].category)))
                  && (log[i].UnknownEvent? ==> log[i].observed == None))
  {
    var log := w.file.events;
    t := 0;
    if log[i].FailedEvent? || log[i].RetryableEvent?
       || (log[i].SucceededEvent? && log[0].category != MAIL && !(log[i - 1].CommittedEvent? && log[i - 1].owner.token == Local)) {
      t := ExplainedSpeaks(w, i, exact);
    }
    if log[i].UnknownEvent? && log[0].category != MAIL {
      UnknownSaysNothing(w, i, exact);
    }
  }

  /** Where live owners are recognized, that holds of Office attempts too. */
  lemma ExactOutcomesAreTrue(w0: World, run: seq<Step>, i: nat) returns (t: nat)
    requires Init(w0) && Possible(w0, run) && ExactRun(w0, run)
    requires 0 < i < |After(w0, run).file.events|
    ensures var w := After(w0, run);
            var log := w.file.events;
            && log[0].ArmedEvent?
            && (log[i].FailedEvent? || log[i].RetryableEvent? ==> SpeaksFor(w, i, t, true))
            && (log[0].category != MAIL ==>
                  && (log[i].SucceededEvent? ==>
                        (log[i - 1].CommittedEvent? && log[i - 1].owner.token == Local) || SpeaksFor(w, i, t, true))
                  && (log[i].UnknownEvent? ==> log[i].observed == None))
  {
    FreshIsTold(w0);
    ExactRunTold(w0, run);
    t := TrueOutcome(After(w0, run), i, true);
  }

  // -- on whose authority a helper acts -------------------------------------------------------------------

  /** What a helper goes by: what it read when it was let through. */
  function GoesBy(w: World, t: nat): Option<Seen>
    requires t < |w.helpers|
  {
    match w.helpers[t].pc
    case Preparing(seen) => if Holds(w, t) && w.holder.value.verdict == Proceed then Some(seen) else None
    case Prepared(seen) => Some(seen)
    case Acting(seen) => Some(seen)
    case Finished(seen, _) => Some(seen)
    case _ => None
  }

  /** That is what the journal sealed. */
  predicate ReadWhatWasSealed(log: seq<Event>, seen: Seen) {
    Sealed(log) && log[0].authority == seen.record.authority && log[0].category == seen.category
  }

  ghost predicate Vouched(w: World) {
    forall t :: 0 <= t < |w.helpers| && GoesBy(w, t).Some? ==> ReadWhatWasSealed(w.file.events, GoesBy(w, t).value)
  }

  lemma VouchedStays(w: World, w': World)
    requires Vouched(w) && w.file.events <= w'.file.events && |w.helpers| <= |w'.helpers|
    requires forall t :: 0 <= t < |w'.helpers| && GoesBy(w', t).Some? ==> t < |w.helpers| && GoesBy(w', t) == GoesBy(w, t)
    ensures Vouched(w')
  {
  }

  lemma PrepareVouched(w: World, t: nat, durable: Durable)
    requires Invariant(w) && Vouched(w) && Enabled(w, Prepare(t, durable))
    ensures Vouched(Do(w, Prepare(t, durable)))
  {
    var w' := Do(w, Prepare(t, durable));
    forall u | 0 <= u < |w'.helpers| && GoesBy(w', u).Some? ensures ReadWhatWasSealed(w'.file.events, GoesBy(w', u).value) {
      if u != t {
        assert GoesBy(w', u) == GoesBy(w, u);
      }
    }
  }

  lemma StepVouched(w: World, s: Step)
    requires Invariant(w) && Vouched(w) && Enabled(w, s)
    ensures Vouched(Do(w, s))
  {
    var w' := Do(w, s);
    if s.Prepare? {
      PrepareVouched(w, s.t, s.durable);
    } else {
      GoesOn(w, s);
      VouchedStays(w, w');
    }
  }

  lemma GoesOn(w: World, s: Step)
    requires Invariant(w) && Enabled(w, s) && !s.Prepare?
    ensures var w' := Do(w, s);
      && w.file.events <= w'.file.events && |w.helpers| <= |w'.helpers|
      && forall t :: 0 <= t < |w'.helpers| && GoesBy(w', t).Some? ==> t < |w.helpers| && GoesBy(w', t) == GoesBy(w, t)
  {
    if s.WriteFails? || s.OperatorDies? || (s.HelperDies? && Holds(w, s.t)) {
      LossExits(w, s);
      LossGoesOn(w, s);
    } else {
      forall t | 0 <= t < |w.helpers| ensures HelperGood(w, t) {
      }
    }
  }

  lemma LossGoesOn(w: World, s: Step)
    requires Invariant(w) && Enabled(w, s) && (s.WriteFails? || s.OperatorDies? || (s.HelperDies? && Holds(w, s.t)))
    ensures var w' := Do(w, s);
      && w.file.events <= w'.file.events && |w.helpers| <= |w'.helpers|
      && forall t :: 0 <= t < |w'.helpers| && GoesBy(w', t).Some? ==> t < |w.helpers| && GoesBy(w', t) == GoesBy(w, t)
  {
    var w' := Do(w, s);
    LossExits(w, s);
    assert w'.holder.None?;
    forall t | 0 <= t < |w'.helpers| && GoesBy(w', t).Some? ensures t < |w.helpers| && GoesBy(w', t) == GoesBy(w, t) {
      if t < |w.helpers| {
        assert HelperGood(w, t);
      }
    }
  }

  /** A helper acts only if the record it was given carried the very authority that its journal sealed. */
  lemma {:induction false} ActsOnSealedAuthority(w: World, run: seq<Step>)
    requires Invariant(w) && Vouched(w) && Possible(w, run)
    ensures Vouched(After(w, run))
    decreases |run|
  {
    if run != [] {
      StepVouched(w, run[0]);
      StepKeeps(w, run[0]);
      ActsOnSealedAuthority(Do(w, run[0]), run[1..]);
    }
  }

  /** From a fresh record: every helper that is let through, acts or has acted was given the sealed authority. */
  lemma HelpersActOnSealedAuthority(w0: World, run: seq<Step>, t: nat)
    requires Init(w0) && Possible(w0, run)
    requires t < |After(w0, run).helpers| && GoesBy(After(w0, run), t).Some?
    ensures var w := After(w0, run);
      w.file.events != [] && w.file.events[0].ArmedEvent? && w.file.events[0].authority == GoesBy(w, t).value.record.authority
  {
    InitHolds(w0);
    ActsOnSealedAuthority(w0, run);
  }
}

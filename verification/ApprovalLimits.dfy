/** Where the protocol's promises end: rejections after sealing, and recoveries that misjudge a live owner. */
module ApprovalLimits {
  import opened Outcomes
  import opened ExecutionState
  import opened ExecutionLedger
  import opened ExecutionJournal
  import opened ApprovalPlans
  import opened ApprovalProtocol
  import opened ApprovalLegality
  import opened ApprovalInvariant
  import opened ApprovalExclusion
  import opened ApprovalRegions

  // -- is a rejection final? ---------------------------------------------------

  /** Some continuation of the run starts the action once more. */
  ghost predicate CanStart(w: World) {
    exists run :: Possible(w, run) && |After(w, run).started| > |w.started|
  }

  /** Rejected (or frozen since) with nothing sealed, and nobody about to seal it. */
  predicate NeverSealed(w: World) {
    && !Exists(w.file) && (w.record.status == Rejected || w.record.status == Frozen)
    && w.helpers == [] && w.started == [] && w.continuing == 0
    && (w.holder.Some? ==> w.holder.value.todo == [] && w.holder.value.verdict == Quit && !w.holder.value.who.Process?)
  }

  lemma {:induction false} NeverSealedNeverStarts(w: World, run: seq<Step>)
    requires NeverSealed(w) && Possible(w, run)
    ensures NeverSealed(After(w, run))
    decreases |run|
  {
    if run != [] {
      NeverSealedNeverStarts(Do(w, run[0]), run[1..]);
    }
  }

  /** `w` after helper `t` has prepared: its start and its commit are journalled, and it may act. */
  function PreparedWorld(w: World, t: nat): World
    requires t < |w.helpers| && Load(w.receipt, w.file).Ok?
  {
    var owner := Owner(Secret(t), w.helpers[t].identity);
    At(w.(file := Appended(Appended(w.file, StartedEvent(owner)), CommittedEvent(owner))), t,
       Prepared(Seen(w.record, Load(w.receipt, w.file).value.category)))
  }

  /** A bound, waiting helper gets to prepare when the lock is free. */
  lemma LaunchedPrepares(w: World, t: nat)
    requires w.holder.None? && t < |w.helpers| && w.helpers[t].pc.Waiting?
    requires InPhase(w.receipt, w.file, HelperStarted)
    requires Load(w.receipt, w.file).value.owner.value.token == Secret(t)
    requires Load(w.receipt, w.file).value.authority == w.record.authority
    ensures Reaches(w, PreparedWorld(w, t))
  {
    var s := Prepare(t, NoReceipt);
    var owner := Owner(Secret(t), w.helpers[t].identity);
    var todo := [Append(StartedEvent(owner)), Append(CommittedEvent(owner))];
    var w1 := Do(w, s);
    assert w1.holder.value == Holder(Process(t), todo, Proceed);
    PerformAllTwo(w1, todo[0], todo[1]);
    ReachRegion(w, s);
    assert Complete(w1) == PreparedWorld(w, t);
  }

  lemma PreparedCanStart(w: World, w': World, t: nat)
    requires Reaches(w, w') && t < |w'.helpers| && w'.helpers[t].pc.Prepared? && w'.started == w.started
    ensures CanStart(w)
  {
    ReachStep(w', StartAction(t));
    ReachTrans(w, w', Do(w', StartAction(t)));
    var run :| Possible(w, run) && After(w, run) == Do(w', StartAction(t));
    assert After(w, run).started == w.started + [t];
  }

  function LaunchedWorld(ready: World, identity: Identity): World {
    ready.(helpers := ready.helpers + [Helper(identity, Waiting)],
           file := Appended(ready.file, StartedEvent(Owner(Secret(|ready.helpers|), identity))))
  }

  lemma LaunchCompletes(w: World, opening: seq<Write>, identity: Identity, ready: World)
    requires w.holder.None? && ready == PerformAll(w, opening) && ready.helpers == w.helpers && ready.holder.None?
    ensures Complete(w.(holder := Some(Holder(Operator, opening + LaunchWrites(|w.helpers|, identity), Quit))))
            == LaunchedWorld(ready, identity)
  {
    var launch := LaunchWrites(|w.helpers|, identity);
    var holder := Some(Holder(Operator, opening + launch, Quit));
    PerformAllConcat(w, opening, launch);
    LaunchPerformed(ready, identity);
    HolderIsPassive(w, opening + launch, holder);
    ReleasedQuietly(LaunchedWorld(ready, identity));
  }

  lemma LaunchPerformed(ready: World, identity: Identity)
    ensures PerformAll(ready, LaunchWrites(|ready.helpers|, identity)) == LaunchedWorld(ready, identity)
  {
    var launch := LaunchWrites(|ready.helpers|, identity);
    PerformAllTwo(ready, launch[0], launch[1]);
  }

  lemma ReleasedQuietly(w: World)
    requires w.holder.None?
    ensures Do(w.(holder := Some(Holder(Operator, [], Quit))), Release) == w
  {
  }

  /** A recovery that makes the journal ready launches a helper bound to it. */
  lemma RecoverLaunches(w: World, opening: seq<Write>, a: Answers, ready: World)
    requires w.holder.None? && ready == PerformAll(w, opening) && ready.helpers == w.helpers && ready.holder.None?
    requires RecoverWrites(w.receipt, w.file, w.record, |w.helpers|, a) == opening + LaunchWrites(|w.helpers|, a.spawned)
    requires RecoverObserves(w, a) == {}
    ensures Reaches(w, LaunchedWorld(ready, a.spawned))
  {
    var todo := opening + LaunchWrites(|w.helpers|, a.spawned);
    assert w.observed + {} == w.observed;
    var w1 := w.(holder := Some(Holder(Operator, todo, Quit)));
    assert Do(w, Recover(a)) == w1;
    LaunchCompletes(w, opening, a.spawned, ready);
    ReachRegion(w, Recover(a));
  }

  /** ... and the launched helper can act. */
  lemma RecoveredPrepares(w: World, ready: World, identity: Identity)
    requires Reaches(w, LaunchedWorld(ready, identity)) && ready.holder.None? && !ready.file.torn && ready.started == w.started
    requires PhaseOf(ready.receipt, ready.file.events) == Ok(Ready) || PhaseOf(ready.receipt, ready.file.events) == Ok(HelperStarted)
    requires ready.file.events[0].authority == ready.record.authority
    ensures Load(ready.receipt, LaunchedWorld(ready, identity).file).Ok?
    ensures Reaches(w, PreparedWorld(LaunchedWorld(ready, identity), |ready.helpers|))
    ensures CanStart(w)
  {
    var t := |ready.helpers|;
    var w2 := LaunchedWorld(ready, identity);
    AppendedReplay(ready.receipt, ready.file.events, StartedEvent(Owner(Secret(t), identity)));
    LaunchedPrepares(w2, t);
    ReachTrans(w, w2, PreparedWorld(w2, t));
    PreparedCanStart(w, PreparedWorld(w2, t), t);
  }

  /** The lock is free and no helper is alive. */
  predicate Idle(w: World) {
    w.holder.None? && forall t :: 0 <= t < |w.helpers| ==> w.helpers[t].pc.Exited?
  }

  /** What a recovery would still act on: a journal that can be read and whose attempt has not been spent, or may be
      spent again. */
  predicate Reopenable(w: World) {
    var s := Load(w.receipt, w.file);
    s.Ok? &&
    match s.value.phase
    case Armed | Ready | HelperStarted => true
    case AttemptCommitted => IsOffice(s.value.category)
    case RetryableFailure =>
      s.value.category == CRON && !w.record.questionsOpen && w.record.payloadReadable && s.value.authority.continuation != Malformed
    case Succeeded | Failed | OutcomeUnknown => false
  }

  // -- nothing to reopen: nothing starts -------------------------------------------------

  predicate Inert(status: Status) {
    status != Pending && status != Approving && status != Executing
  }

  predicate BarredWrite(x: Write, missing: bool, unasked: bool) {
    match x
    case Spawn(_) => false
    case Append(e) => !missing && (e.SucceededEvent? || e.FailedEvent? || e.UnknownEvent?)
    case Resolve(status, _) => (missing ==> Inert(status)) && (unasked ==> status != Approving)
    case _ => true
  }

  predicate BarredTodo(todo: seq<Write>, missing: bool, unasked: bool) {
    forall i :: 0 <= i < |todo| ==> BarredWrite(todo[i], missing, unasked)
  }

  /** No live helper, nothing to reopen, and nobody about to write anything that could be. */
  predicate Barred(w: World) {
    && (forall t :: 0 <= t < |w.helpers| ==> w.helpers[t].pc.Exited?)
    && !Reopenable(w)
    && (!Exists(w.file) ==> Inert(w.record.status))
    && (w.record.questionsOpen ==> w.record.status != Approving)
    && (w.holder.Some? ==>
          !w.holder.value.who.Process? && BarredTodo(w.holder.value.todo, !Exists(w.file), w.record.questionsOpen))
  }

  lemma BarredProjection(receipt: string -> string, s: Snapshot, seen: Record, durable: Durable)
    ensures BarredTodo(ProjectWrites(receipt, s, seen, durable), false, true)
  {
  }

  lemma BarredConclusion(receipt: string -> string, log: seq<Event>, e: Event, seen: Record, durable: Durable)
    requires e.SucceededEvent? || e.FailedEvent? || e.UnknownEvent?
    ensures BarredTodo(Conclude(receipt, log, e, seen, durable), false, true)
  {
    if Replay(receipt, log + [e]).Ok? {
      BarredProjection(receipt, Replay(receipt, log + [e]).value, seen, durable);
    }
  }

  lemma BarredRecovery(w: World, a: Answers)
    requires Barred(w)
    ensures BarredTodo(RecoverWrites(w.receipt, w.file, w.record, |w.helpers|, a), !Exists(w.file), w.record.questionsOpen)
  {
    var s := Load(w.receipt, w.file);
    if Exists(w.file) && s.Ok? && w.record.status != Frozen && s.value.authority == w.record.authority {
      BarredConclusion(w.receipt, w.file.events, ReconcileEvent(w.receipt, a.reconciled), w.record, a.durable);
      BarredConclusion(w.receipt, w.file.events, UnknownEvent(None), w.record, a.durable);
      BarredProjection(w.receipt, s.value, w.record, a.durable);
    }
  }

  lemma BarredRecheck(w: World, a: Answers)
    requires Barred(w)
    ensures BarredTodo(RecheckWrites(w.receipt, w.file, w.record, a), !Exists(w.file), w.record.questionsOpen)
  {
    var s := Load(w.receipt, w.file);
    if s.Ok? {
      BarredProjection(w.receipt, s.value, w.record, a.durable);
      BarredAsking(w.receipt, w.file.events, w.record, a);
    }
  }

  lemma BarredAsking(receipt: string -> string, log: seq<Event>, r: Record, a: Answers)
    ensures BarredTodo(AskWrites(receipt, log, r, a), false, true)
  {
    if a.reconciled.Observed? {
      BarredConclusion(receipt, log, SucceededEvent(Cut(a.reconciled.receipt)), r, a.durable);
    }
  }

  lemma BarredSeal(w: World)
    requires Barred(w)
    ensures BarredTodo(SealWrites(w.receipt, w.file, w.record), !Exists(w.file), w.record.questionsOpen)
  {
  }

  lemma BarredRegion(w: World, s: Step)
    requires Barred(w) && Enabled(w, s) && w.holder.None?
    ensures Barred(Do(w, s))
  {
    match s
    case Recover(a) => BarredRecovery(w, a);
    case Recheck(a) => BarredRecheck(w, a);
    case Seal => BarredSeal(w);
    case _ =>
  }

  lemma DeadFileStaysDead(receipt: string -> string, file: File, e: Event, record: Record)
    requires e.SucceededEvent? || e.FailedEvent? || e.UnknownEvent?
    ensures var s := Load(receipt, Appended(file, e)); s.Ok? ==> s.value.phase in {Succeeded, Failed, OutcomeUnknown}
  {
  }

  lemma BarredPerform(w: World, x: Write)
    requires Barred(w) && BarredWrite(x, !Exists(w.file), w.record.questionsOpen)
    ensures Barred(Perform(w, x).(holder := None))
    ensures Exists(Perform(w, x).file) == Exists(w.file) && Perform(w, x).record.questionsOpen == w.record.questionsOpen
  {
    if x.Append? {
      DeadFileStaysDead(w.receipt, w.file, x.event, w.record);
    }
  }

  lemma BarredFault(w: World, fault: Fault)
    requires Barred(w) && w.holder.Some? && FaultFits(w.holder.value.todo, fault)
    ensures Barred(Interrupt(w, w.holder.value.todo, fault).(holder := None))
  {
    var todo := w.holder.value.todo;
    match fault
    case Whole => BarredPerform(w, todo[0]);
    case _ =>
  }

  lemma BarredStep(w: World, s: Step)
    requires Barred(w) && Enabled(w, s)
    ensures Barred(Do(w, s)) && Do(w, s).started == w.started
  {
    match s
    case WriteNext => BarredPerform(w, w.holder.value.todo[0]);
    case WriteFails(fault) => BarredFault(w, fault);
    case OperatorDies(fault) => BarredFault(w, fault);
    case Claim | Restore | Reject | Seal | Recover(_) | Recheck(_) | Resume => BarredRegion(w, s);
    case _ => BarredAside(w, s);
  }

  lemma BarredAside(w: World, s: Step)
    requires Barred(w) && Enabled(w, s)
    requires s.ResumeEnds? || s.Release? || s.FreezeLate? || s.EditRecord? || s.Prepare? || s.StartAction? || s.EndAction?
             || s.RecordOutcome? || s.HelperDies?
    ensures Barred(Do(w, s)) && Do(w, s).started == w.started
  {
  }

  /** No run from there starts the action again. */
  lemma {:induction false} BarredNeverStarts(w: World, run: seq<Step>)
    requires Barred(w) && Possible(w, run)
    ensures After(w, run).started == w.started
    decreases |run|
  {
    if run != [] {
      BarredStep(w, run[0]);
      BarredNeverStarts(Do(w, run[0]), run[1..]);
    }
  }

  // -- something to reopen: a recovery starts it --------------------------------------------

  lemma StartsLater(w: World, w': World)
    requires Reaches(w, w') && w'.started == w.started && CanStart(w')
    ensures CanStart(w)
  {
    var run :| Possible(w', run) && |After(w', run).started| > |w'.started|;
    var front :| Possible(w, front) && After(w, front) == w';
    RunConcat(w, front, run);
    assert |After(w, front + run).started| > |w.started|;
  }

  /** An operator's undisturbed region leaves exactly its writes behind. */
  lemma CompleteOperator(w: World, todo: seq<Write>)
    requires w.holder.None?
    ensures Complete(Enter(w, Operator, todo, Quit)) == PerformAll(w, todo).(holder := None)
  {
    HolderIsPassive(w, todo, Enter(w, Operator, todo, Quit).holder);
  }

  predicate Own(w: World) {
    w.holder.None? && w.record.status != Frozen && Load(w.receipt, w.file).Ok?
    && Load(w.receipt, w.file).value.authority == w.record.authority
  }

  const NOBODY := Answers(map[], Unreachable, NoReceipt, None, Identity(1, None), "")

  lemma OpenStarts(w: World)
    requires Own(w) && Load(w.receipt, w.file).value.phase in {Armed, Ready, HelperStarted, AttemptCommitted}
    requires InPhase(w.receipt, w.file, AttemptCommitted) ==> IsOffice(w.file.events[0].category)
    ensures CanStart(w)
  {
    var phase := Load(w.receipt, w.file).value.phase;
    if phase == Armed {
      var opening := [Append(ReadyEvent), Resolve(Executing, NO_DETAILS)];
      PerformAllTwo(w, opening[0], opening[1]);
      AppendedReplay(w.receipt, w.file.events, ReadyEvent);
      var ready := PerformAll(w, opening);
      RecoverLaunches(w, opening, NOBODY, ready);
      RecoveredPrepares(w, ready, NOBODY.spawned);
    } else if phase == AttemptCommitted {
      var opening := [Append(ReadyEvent)];
      var ready := Perform(w, opening[0]);
      assert PerformAll(w, opening) == PerformAll(ready, opening[1..]);
      AppendedReplay(w.receipt, w.file.events, ReadyEvent);
      assert MAIL[0] != "office_"[0];
      RecoverLaunches(w, opening, NOBODY, ready);
      RecoveredPrepares(w, ready, NOBODY.spawned);
    } else {
      assert [] + LaunchWrites(|w.helpers|, NOBODY.spawned) == LaunchWrites(|w.helpers|, NOBODY.spawned);
      RecoverLaunches(w, [], NOBODY, w);
      RecoveredPrepares(w, w, NOBODY.spawned);
    }
  }

  /** A retryable cron failure is projected back to pending, whatever the record said, and can then be claimed and sealed again. */
  lemma RetryStarts(w: World)
    requires Own(w) && Reopenable(w) && InPhase(w.receipt, w.file, RetryableFailure)
    ensures CanStart(w)
  {
    var s := Load(w.receipt, w.file).value;
    var pending := Resolve(Pending, NO_DETAILS.(error := s.error));
    var w1 := w.(record := Written(w.record, pending));
    assert w.observed + {} == w.observed;
    assert Do(w, Recover(NOBODY)) == Enter(w, Operator, [pending], Quit);
    CompleteOne(Enter(w, Operator, [pending], Quit), pending);
    ReachRegion(w, Recover(NOBODY));
    RetryClaimed(w1, s.authority);
    StartsLater(w, w1);
  }

  lemma RetryClaimed(w: World, own: Authority)
    requires Own(w) && Reopenable(w) && InPhase(w.receipt, w.file, RetryableFailure) && w.record.status == Pending
    requires own == w.record.authority
    ensures CanStart(w)
  {
    var w1 := Do(w, EditRecord(own.(category := CRON)));
    var claim := Resolve(Approving, NO_DETAILS);
    var w2 := w1.(record := Written(w1.record, claim));
    assert CRON[0] != "workflow"[0];
    assert Do(w1, Claim) == Enter(w1, Operator, [claim], Quit);
    CompleteOne(Enter(w1, Operator, [claim], Quit), claim);
    ReachStep(w, EditRecord(own.(category := CRON)));
    ReachRegion(w1, Claim);
    ReachTrans(w, w1, w2);
    ReachStep(w2, EditRecord(own));
    var w3 := Do(w2, EditRecord(own));
    ReachTrans(w, w2, w3);
    RetrySealed(w3);
    StartsLater(w, w3);
  }

  lemma RetrySealed(w: World)
    requires Own(w) && Reopenable(w) && InPhase(w.receipt, w.file, RetryableFailure) && w.record.status == Approving
    ensures CanStart(w)
  {
    var todo := [Append(ReadyEvent), Resolve(Executing, NO_DETAILS)];
    assert Do(w, Seal) == Enter(w, Operator, todo, Quit);
    CompleteOperator(w, todo);
    PerformAllTwo(w, todo[0], todo[1]);
    ReachRegion(w, Seal);
    AppendedReplay(w.receipt, w.file.events, ReadyEvent);
    var w1 := PerformAll(w, todo).(holder := None);
    OpenStarts(w1);
    StartsLater(w, w1);
  }

  lemma ReopenableStarts(w: World)
    requires w.holder.None? && w.record.status != Frozen && Reopenable(w)
    ensures CanStart(w)
  {
    var s := Load(w.receipt, w.file).value;
    ReachStep(w, EditRecord(s.authority));
    var w1 := Do(w, EditRecord(s.authority));
    if s.phase == RetryableFailure {
      RetryStarts(w1);
    } else {
      OpenStarts(w1);
    }
    StartsLater(w, w1);
  }

  /** With no helper alive, a rejection is final exactly when the journal gives recovery nothing to act on: it is missing,
      torn or unreadable, or its attempt is spent. */
  lemma RejectionIsFinalIffNotReopenable(w: World)
    requires w.record.status == Rejected && Idle(w)
    ensures CanStart(w) <==> Reopenable(w)
  {
    if Reopenable(w) {
      ReopenableStarts(w);
    } else if CanStart(w) {
      var run :| Possible(w, run) && |After(w, run).started| > |w.started|;
      BarredNeverStarts(w, run);
    }
  }

  // -- both kinds of rejection are reachable -----------------------------------------------------

  /** From a fresh record one crash while sealing, an undone claim and a rejection leave a journal that can be reopened. */
  lemma HalfSealedRejectionIsReachable(w: World)
    requires Init(w) && w.record.status == Pending && !w.record.questionsOpen && w.record.payloadReadable
    requires w.record.authority.continuation == Absent && w.record.authority.category != "workflow"
    ensures exists w' :: Reaches(w, w') && w'.record.status == Rejected && Idle(w') && Reopenable(w')
  {
    var claimed := w.(record := Written(w.record, Resolve(Approving, NO_DETAILS)));
    ReachRegion(w, Claim);
    CompleteOne(Do(w, Claim), Resolve(Approving, NO_DETAILS));
    var armed := ArmedEvent(w.record.authority, w.record.authority.category);
    var crashed := claimed.(file := File([armed, ReadyEvent], false));
    SealCrash(claimed, armed, crashed);
    ReachTrans(w, claimed, crashed);
    UndoneThenRejected(crashed);
    var rejected := crashed.(record := Written(Written(crashed.record, Resolve(Pending, NO_DETAILS)), Resolve(Rejected, NO_DETAILS)));
    ReachTrans(w, crashed, rejected);
    AppendedReplay(w.receipt, [armed], ReadyEvent);
    assert [armed] + [ReadyEvent] == [armed, ReadyEvent];
    assert Reopenable(rejected);
  }

  /** The same crash inside the first line leaves a torn journal, and the rejection is final although a journal exists. */
  lemma TornRejectionIsReachable(w: World)
    requires Init(w) && w.record.status == Pending && !w.record.questionsOpen && w.record.payloadReadable
    requires w.record.authority.continuation == Absent && w.record.authority.category != "workflow"
    ensures exists w' :: Reaches(w, w') && w'.record.status == Rejected && Idle(w') && Exists(w'.file) && !CanStart(w')
  {
    var claimed := w.(record := Written(w.record, Resolve(Approving, NO_DETAILS)));
    ReachRegion(w, Claim);
    CompleteOne(Do(w, Claim), Resolve(Approving, NO_DETAILS));
    var crashed := claimed.(file := File([], true));
    ReachStep(claimed, Seal);
    ReachStep(Do(claimed, Seal), OperatorDies(Partial));
    ReachTrans(claimed, Do(claimed, Seal), crashed);
    ReachTrans(w, claimed, crashed);
    UndoneThenRejected(crashed);
    var rejected := crashed.(record := Written(Written(crashed.record, Resolve(Pending, NO_DETAILS)), Resolve(Rejected, NO_DETAILS)));
    ReachTrans(w, crashed, rejected);
    RejectionIsFinalIffNotReopenable(rejected);
  }

  lemma UndoneThenRejected(w: World)
    requires w.holder.None? && w.record.status == Approving
    ensures Reaches(w, w.(record := Written(Written(w.record, Resolve(Pending, NO_DETAILS)), Resolve(Rejected, NO_DETAILS))))
  {
    ReachRegion(w, Restore);
    CompleteOne(Do(w, Restore), Resolve(Pending, NO_DETAILS));
    var restored := Complete(Do(w, Restore));
    ReachRegion(restored, Reject);
    CompleteOne(Do(restored, Reject), Resolve(Rejected, NO_DETAILS));
    ReachTrans(w, restored, Complete(Do(restored, Reject)));
  }

  lemma SealCrash(w: World, armed: Event, crashed: World)
    requires w.holder.None? && w.file == File([], false) && w.record.status == Approving && w.record.payloadReadable
    requires w.record.authority.continuation == Absent && armed == ArmedEvent(w.record.authority, w.record.authority.category)
    requires crashed == w.(file := File([armed, ReadyEvent], false))
    ensures Reaches(w, crashed)
  {
    var w1 := Do(w, Seal);
    var w2 := Do(w1, WriteNext);
    assert w2.file.events == [armed];
    var w3 := Do(w2, WriteNext);
    assert w3.file.events == [armed, ReadyEvent];
    ReachStep(w, Seal);
    ReachStep(w1, WriteNext);
    ReachTrans(w, w1, w2);
    ReachStep(w2, WriteNext);
    ReachTrans(w, w2, w3);
    ReachStep(w3, OperatorDies(Nothing));
    ReachTrans(w, w3, Do(w3, OperatorDies(Nothing)));
  }

  // -- is exact observation needed? ------------------------------------------------

  /** Wherever an Office helper is acting, a recovery that cannot see it (no generation to observe, say)
      leads to a second helper inside an attempt beside it. */
  lemma BlindRecoveryOverlaps(w: World, t: nat)
    requires Invariant(w) && w.holder.None? && !w.file.torn && w.record.status != Frozen
    requires t < |w.helpers| && w.helpers[t].pc.Acting? && Owns(w.file.events, t)
    requires IsOffice(w.file.events[0].category) && PhaseOf(w.receipt, w.file.events).Ok?
    requires w.file.events[0].authority == w.record.authority
    ensures exists w' :: Reaches(w, w') && |w.helpers| < |w'.helpers| && InAttempt(w', t) && InAttempt(w', |w.helpers|)
  {
    var a := Answers(map[], Unreachable, NoReceipt, None, Identity(1, None), "");
    var opening := [Append(ReadyEvent)];
    var ready := Perform(w, opening[0]);
    assert PerformAll(w, opening) == PerformAll(ready, opening[1..]);
    AppendedReplay(w.receipt, w.file.events, ReadyEvent);
    assert MAIL[0] != "office_"[0];
    RecoverLaunches(w, opening, a, ready);
    RecoveredPrepares(w, ready, a.spawned);
    assert InAttempt(PreparedWorld(LaunchedWorld(ready, a.spawned), |w.helpers|), t);
  }
}

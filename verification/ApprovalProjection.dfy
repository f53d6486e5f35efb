/** Projecting a finished journal onto its record: convergence, repair after a crash, and idempotence. */
module ApprovalProjection {
  import opened Outcomes
  import opened ExecutionState
  import opened ExecutionLedger
  import opened ExecutionJournal
  import opened ApprovalPlans
  import opened ApprovalProtocol
  import opened ApprovalLegality
  import opened ApprovalInvariant
  import opened ApprovalRegions

  predicate PlainCategory(category: string) {
    category != CRON && !IsOffice(category)
  }

  predicate Concluded(phase: Phase) {
    phase == Succeeded || phase == Failed || phase == OutcomeUnknown
  }

  /** The status a finished journal decides, together with whether a continuation was asked for. */
  function FinalStatus(phase: Phase, continuation: Continuation): Status {
    if phase == Succeeded then (if continuation == Absent then Approved else ResumePending)
    else if phase == Failed then Failure
    else Unconfirmed
  }

  /** A finished, readable journal of the record it belongs to. */
  predicate Terminal(w: World) {
    var s := Load(w.receipt, w.file);
    && s.Ok? && Concluded(s.value.phase) && PlainCategory(s.value.category)
    && s.value.authority == w.record.authority
  }

  function Settlement(w: World): Status
    requires Terminal(w)
  {
    FinalStatus(Load(w.receipt, w.file).value.phase, w.record.authority.continuation)
  }

  /** No continuation was asked for, and none is under way. */
  predicate Lone(w: World) {
    && w.record.authority.continuation == Absent && w.continuing == 0
    && (w.holder.Some? && w.holder.value.who == Resumer ==> w.holder.value.verdict == Quit)
  }

  // -- one projection --------------------------------------------------------------

  predicate QuietTodo(record: Record, todo: seq<Write>, status: Status) {
    todo == [] ||
    (&& |todo| == 1 && todo[0].Resolve? && todo[0].status == status
     && (record.details.recheckState.Some? ==> todo[0].updates.recheckState.None?))
  }

  lemma TerminalProjection(w: World, seen: Record, durable: Durable)
    requires Terminal(w) && seen == w.record
    ensures QuietTodo(w.record, ProjectWrites(w.receipt, Load(w.receipt, w.file).value, seen, durable), Settlement(w))
    ensures |ProjectWrites(w.receipt, Load(w.receipt, w.file).value, seen, durable)| == 1
  {
    var s := Load(w.receipt, w.file).value;
    assert s.phase == Succeeded ==> s.result.Some?;
    assert "office_" <= "office_job" && "office_" <= "office_create";
  }

  /** What one undisturbed recovery of a finished journal does, exactly. */
  lemma RecoveryProjects(w: World, a: Answers)
    requires Terminal(w) && w.holder.None? && w.record.status != Frozen
    ensures var p := ProjectWrites(w.receipt, Load(w.receipt, w.file).value, w.record, a.durable);
            |p| == 1 && Complete(Do(w, Recover(a))) == w.(record := Written(w.record, p[0]))
  {
    var p := ProjectWrites(w.receipt, Load(w.receipt, w.file).value, w.record, a.durable);
    TerminalProjection(w, w.record, a.durable);
    assert w.observed + {} == w.observed;
    assert Do(w, Recover(a)) == Enter(w, Operator, p, Quit);
    assert p == [p[0]];
    CompleteOne(Enter(w, Operator, p, Quit), p[0]);
  }

  /** Repair: wherever an earlier projection crashed, one undisturbed recovery settles the record, with or without
      a continuation. */
  lemma RecoverySettles(w: World, a: Answers)
    requires Terminal(w) && w.holder.None? && w.record.status != Frozen
    ensures var w' := Complete(Do(w, Recover(a)));
            Terminal(w') && w'.record.status == Settlement(w) && w'.file == w.file && w'.holder.None?
  {
    RecoveryProjects(w, a);
    TerminalProjection(w, w.record, a.durable);
  }

  /** Overwriting the same details a second time changes nothing. */
  lemma ProjectedTwice(w: World, a: Durable, b: Durable)
    requires Terminal(w)
    ensures var s := Load(w.receipt, w.file).value;
            var p := ProjectWrites(w.receipt, s, w.record, a);
            p != [] &&
            var r := Written(w.record, p[0]);
            var q := ProjectWrites(w.receipt, s, r, b);
            q != [] && Written(r, q[0]) == r
  {
    TerminalProjection(w, w.record, a);
    var s := Load(w.receipt, w.file).value;
    var r := Written(w.record, ProjectWrites(w.receipt, s, w.record, a)[0]);
    TerminalProjection(w.(record := r), r, b);
  }

  /** Projecting again changes nothing at all. */
  lemma RecoveryIsIdempotent(w: World, a: Answers, b: Answers)
    requires Terminal(w) && w.holder.None? && w.record.status != Frozen
    ensures var w1 := Complete(Do(w, Recover(a)));
            w1.holder.None? && Complete(Do(w1, Recover(b))) == w1
  {
    RecoverySettles(w, a);
    RecoveryProjects(w, a);
    RecoveryProjects(Complete(Do(w, Recover(a))), b);
    ProjectedTwice(w, a.durable, b.durable);
  }

  /** A crash between a mail's confirmation and its projection is repaired by the next recheck exactly when
      the receipt, as the journal stores it, still reads submitted; a mail with a continuation resumes. */
  lemma RecheckRepairs(w: World, a: Answers)
    requires Terminal(w) && w.holder.None? && w.record.status == Unconfirmed
    requires Load(w.receipt, w.file).value.phase == Succeeded && w.record.authority.category == MAIL
    requires Load(w.receipt, w.file).value.category == MAIL
    ensures Load(w.receipt, w.file).value.result.Some?
    ensures var stored := Load(w.receipt, w.file).value.result.value;
            var w' := Complete(Do(w, Recheck(a)));
            && (w'.record.status == (if w.record.authority.continuation == Absent then Approved else ResumePending)
                <==> w.receipt(stored) == SUBMITTED)
            && (w.receipt(stored) == SUBMITTED ==> w'.record.details.recheckState == Some(SUBMITTED))
            && (w.receipt(stored) != SUBMITTED ==> w'.record == w.record)
  {
    var s := Load(w.receipt, w.file).value;
    assert s.result.Some?;
    assert w.observed + {} == w.observed;
    var todo := RecheckWrites(w.receipt, w.file, w.record, a);
    assert Do(w, Recheck(a)) == Enter(w, Operator, todo, Quit);
    if w.receipt(s.result.value) == SUBMITTED {
      var p := ProjectWrites(w.receipt, s, w.record, a.durable);
      TerminalProjection(w, w.record, a.durable);
      assert p == [p[0]] && todo == [p[0], todo[1]];
      CompleteTwo(Enter(w, Operator, todo, Quit), p[0], todo[1]);
    } else {
      assert todo == [];
    }
  }

  // -- between the last event and its projection -----------------------------------------

  predicate Outcome(e: Event) {
    e.SucceededEvent? || e.FailedEvent? || e.UnknownEvent?
  }

  predicate RecordOnly(todo: seq<Write>) {
    forall i :: 0 <= i < |todo| ==> !todo[i].Append? && !todo[i].Spawn?
  }

  /** After an outcome a region appends and launches nothing more. */
  predicate OutcomeLast(todo: seq<Write>) {
    forall i, j :: 0 <= i < j < |todo| && todo[i].Append? && Outcome(todo[i].event) ==> !todo[j].Append? && !todo[j].Spawn?
  }

  /** Nobody who holds the lock will touch a journal that ends in an outcome. */
  ghost predicate Closing(w: World) {
    var log := w.file.events;
    w.holder.Some? ==>
      OutcomeLast(w.holder.value.todo) && (log != [] && Outcome(log[|log| - 1]) ==> RecordOnly(w.holder.value.todo))
  }

  lemma ProjectionIsRecordOnly(receipt: string -> string, s: Snapshot, seen: Record, durable: Durable)
    ensures RecordOnly(ProjectWrites(receipt, s, seen, durable))
  {
  }

  lemma ConcludeCloses(receipt: string -> string, log: seq<Event>, e: Event, seen: Record, durable: Durable)
    ensures OutcomeLast(Conclude(receipt, log, e, seen, durable))
  {
    if Replay(receipt, log + [e]).Ok? {
      ProjectionIsRecordOnly(receipt, Replay(receipt, log + [e]).value, seen, durable);
    }
  }

  lemma RecoverLoadedCloses(receipt: string -> string, file: File, r: Record, token: nat, a: Answers)
    ensures OutcomeLast(RecoverLoaded(receipt, file, r, token, a))
    ensures file.events != [] && Outcome(file.events[|file.events| - 1]) ==> RecordOnly(RecoverLoaded(receipt, file, r, token, a))
  {
    var loaded := Load(receipt, file);
    if loaded.Ok? && loaded.value.authority == r.authority {
      var s := loaded.value;
      if s.phase == AttemptCommitted {
        ConcludeCloses(receipt, file.events, ReconcileEvent(receipt, a.reconciled), r, a.durable);
        ConcludeCloses(receipt, file.events, UnknownEvent(None), r, a.durable);
      } else if s.phase in {Succeeded, Failed, RetryableFailure, OutcomeUnknown} {
        ProjectionIsRecordOnly(receipt, s, r, a.durable);
      }
    }
  }

  lemma OutcomeLastConcat(front: seq<Write>, rest: seq<Write>)
    requires OutcomeLast(front) && RecordOnly(rest)
    ensures OutcomeLast(front + rest)
  {
  }

  lemma HarmlessFirst(e: Event, todo: seq<Write>)
    requires OutcomeLast(todo) && !Outcome(e)
    ensures OutcomeLast([Append(e)] + todo)
  {
  }

  lemma SettledThenRecovered(receipt: string -> string, sealed: seq<Event>, e: Event, r: Record, token: nat, a: Answers)
    requires Outcome(e)
    ensures OutcomeLast(SettleWrites(receipt, sealed, e, r, a.durable)
                        + RecoverLoaded(receipt, File(sealed + [CommittedEvent(LOCAL_OWNER), e], false), r, token, a))
  {
    var file := File(sealed + [CommittedEvent(LOCAL_OWNER), e], false);
    var conclude := Conclude(receipt, sealed + [CommittedEvent(LOCAL_OWNER)], e, r, a.durable);
    ConcludeCloses(receipt, sealed + [CommittedEvent(LOCAL_OWNER)], e, r, a.durable);
    HarmlessFirst(CommittedEvent(LOCAL_OWNER), conclude);
    assert file.events[|file.events| - 1] == e;
    RecoverLoadedCloses(receipt, file, r, token, a);
    OutcomeLastConcat([Append(CommittedEvent(LOCAL_OWNER))] + conclude, RecoverLoaded(receipt, file, r, token, a));
  }

  lemma MigrateCloses(receipt: string -> string, r: Record, token: nat, a: Answers)
    ensures OutcomeLast(MigrateWrites(receipt, r, token, a))
  {
    if r.status == Executing && r.payloadReadable {
      var sealed := [ArmedEvent(r.authority, r.authority.category), ReadyEvent];
      var e := LegacyEvent(receipt, r.authority.category, a);
      var rest := if r.authority.category == "office_job" then RecoverLoaded(receipt, File(sealed, false), r, token, a)
                  else SettleWrites(receipt, sealed, e, r, a.durable)
                       + RecoverLoaded(receipt, File(sealed + [CommittedEvent(LOCAL_OWNER), e], false), r, token, a);
      RecoverLoadedCloses(receipt, File(sealed, false), r, token, a);
      SettledThenRecovered(receipt, sealed, e, r, token, a);
      HarmlessFirst(sealed[1], rest);
      HarmlessFirst(sealed[0], [Append(sealed[1])] + rest);
      assert [Append(sealed[0]), Append(sealed[1])] + rest == [Append(sealed[0])] + ([Append(sealed[1])] + rest);
      assert MigrateWrites(receipt, r, token, a) == [Append(sealed[0]), Append(sealed[1])] + rest;
    }
  }

  lemma RegionCloses(w: World, s: Step)
    requires w.holder.None? && Enabled(w, s) && !s.Recheck?
    ensures Closing(Do(w, s))
  {
    if s.Recover? {
      RecoverCloses(w, s.a);
    } else if s.Prepare? {
      HelperPrepareCloses(w, s.t, s.durable);
    } else if s.RecordOutcome? {
      HelperOutcomeCloses(w, s.t, s.durable);
    } else if s.Seal? {
      SealCloses(w.receipt, w.file, w.record);
    }
  }

  lemma RecoverCloses(w: World, a: Answers)
    requires w.holder.None?
    ensures Closing(Do(w, Recover(a)))
  {
    RecoverLoadedCloses(w.receipt, w.file, w.record, |w.helpers|, a);
    MigrateCloses(w.receipt, w.record, |w.helpers|, a);
  }

  lemma HelperPrepareCloses(w: World, t: nat, durable: Durable)
    requires Enabled(w, Prepare(t, durable))
    ensures Closing(Do(w, Prepare(t, durable)))
  {
    PrepareCloses(w.receipt, w.file, w.record, Owner(Secret(t), w.helpers[t].identity), durable);
  }

  lemma HelperOutcomeCloses(w: World, t: nat, durable: Durable)
    requires Enabled(w, RecordOutcome(t, durable))
    ensures Closing(Do(w, RecordOutcome(t, durable)))
  {
    var pc := w.helpers[t].pc;
    OutcomeCloses(w.receipt, w.file, pc.seen.record, pc.seen.category, pc.outcome, durable);
  }

  lemma SealCloses(receipt: string -> string, file: File, r: Record)
    ensures OutcomeLast(SealWrites(receipt, file, r))
    ensures file.events != [] && Outcome(file.events[|file.events| - 1]) ==> RecordOnly(SealWrites(receipt, file, r))
  {
  }

  lemma PrepareCloses(receipt: string -> string, file: File, r: Record, owner: Owner, durable: Durable)
    ensures var todo := PrepareWrites(receipt, file, r, owner, durable).0;
            OutcomeLast(todo) && (file.events != [] && Outcome(file.events[|file.events| - 1]) ==> RecordOnly(todo))
  {
    if Load(receipt, file).Ok? {
      ProjectionIsRecordOnly(receipt, Load(receipt, file).value, r, durable);
    }
  }

  lemma OutcomeCloses(receipt: string -> string, file: File, seen: Record, category: string, outcome: ActionOutcome, durable: Durable)
    ensures var todo := OutcomeWrites(receipt, file, seen, category, outcome, durable);
            OutcomeLast(todo) && (file.events != [] && Outcome(file.events[|file.events| - 1]) ==> RecordOnly(todo))
  {
    var e := OutcomeEvent(receipt, category, outcome);
    if e.Some? {
      ConcludeCloses(receipt, file.events, e.value, seen, durable);
    }
  }

  lemma StepCloses(w: World, s: Step)
    requires Closing(w) && Enabled(w, s) && !s.Recheck?
    ensures Closing(Do(w, s))
  {
    if w.holder.None? {
      RegionCloses(w, s);
    }
  }

  ghost predicate WithoutRechecks(run: seq<Step>) {
    forall i :: 0 <= i < |run| ==> !run[i].Recheck?
  }

  /** However a journal came to be finished, whoever still holds the lock only has the record left to write. */
  lemma {:induction false} FinishedIsClosed(w: World, run: seq<Step>)
    requires Closing(w) && Possible(w, run) && WithoutRechecks(run)
    ensures Closing(After(w, run))
    decreases |run|
  {
    if run != [] {
      StepCloses(w, run[0]);
      FinishedIsClosed(Do(w, run[0]), run[1..]);
    }
  }

  // -- convergence ------------------------------------------------------------------

  /** Everybody but a manual recheck, an edit of the record, and the freeze that a recovery adds, outside the lock,
      after one of its own writes failed. */
  predicate Quiet(s: Step) {
    !s.FreezeLate? && !s.Recheck? && !s.EditRecord?
  }

  ghost predicate QuietRun(run: seq<Step>) {
    forall i :: 0 <= i < |run| ==> Quiet(run[i])
  }

  /** A finished journal; the record may read anything, and whoever holds the lock may have any record write left. */
  ghost predicate Settling(w: World) {
    Invariant(w) && Terminal(w) && Lone(w) && (w.holder.Some? ==> RecordOnly(w.holder.value.todo))
  }

  lemma SettlingRegion(w: World, s: Step)
    requires Settling(w) && Enabled(w, s) && Quiet(s) && w.holder.None? && Do(w, s).holder.Some?
    ensures RecordOnly(Do(w, s).holder.value.todo)
    ensures Do(w, s).holder.value.who == Resumer ==> Do(w, s).holder.value.verdict == Quit
  {
    match s
    case Recover(a) => TerminalProjection(w, w.record, a.durable);
    case Prepare(t, durable) => TerminalProjection(w, w.record, durable);
    case _ =>
  }

  lemma SettlingStep(w: World, s: Step)
    requires Settling(w) && Enabled(w, s) && Quiet(s)
    ensures var w' := Do(w, s); Settling(w') && w'.file == w.file && w'.receipt == w.receipt && w'.record.authority == w.record.authority
  {
    StepKeeps(w, s);
    if w.holder.None? {
      SettlingFree(w, s);
    } else {
      SettlingHeld(w, s);
    }
  }

  lemma SettlingFree(w: World, s: Step)
    requires Settling(w) && Enabled(w, s) && Quiet(s) && w.holder.None?
    ensures var w' := Do(w, s);
      && (w'.holder.Some? ==> RecordOnly(w'.holder.value.todo)) && Lone(w')
      && w'.file == w.file && w'.receipt == w.receipt && w'.record.authority == w.record.authority
  {
    if Do(w, s).holder.Some? {
      SettlingRegion(w, s);
    }
  }

  lemma SettlingHeld(w: World, s: Step)
    requires Settling(w) && Enabled(w, s) && Quiet(s) && w.holder.Some?
    ensures var w' := Do(w, s);
      && (w'.holder.Some? ==> RecordOnly(w'.holder.value.todo)) && Lone(w')
      && w'.file == w.file && w'.receipt == w.receipt && w'.record.authority == w.record.authority
  {
  }

  lemma {:induction false} StaysSettling(w: World, run: seq<Step>)
    requires Settling(w) && Possible(w, run) && QuietRun(run)
    ensures var w' := After(w, run);
            Settling(w') && w'.file == w.file && w'.receipt == w.receipt && w'.record.authority == w.record.authority
    decreases |run|
  {
    if run != [] {
      SettlingStep(w, run[0]);
      StaysSettling(Do(w, run[0]), run[1..]);
    }
  }

  /** Convergence: once the journal is finished, whatever helpers, recoveries, claims, undone claims, rejections, crashes
      and failed writes do from there, in whatever order, the journal stays as it is, and the next undisturbed recovery
      gives the record the one status that the journal determined from the start. */
  lemma ConvergesToTheJournal(w: World, run: seq<Step>, a: Answers)
    requires Settling(w) && Possible(w, run) && QuietRun(run)
    requires After(w, run).holder.None? && After(w, run).record.status != Frozen
    ensures var w' := Complete(Do(After(w, run), Recover(a)));
            Converged(w') && w'.record.status == Settlement(w) && w'.file == w.file && w'.holder.None?
  {
    StaysSettling(w, run);
    var mid := After(w, run);
    RecoverySettles(mid, a);
    RecoveryProjects(mid, a);
    RegionIsRun(mid, Recover(a));
    RunKeeps(mid, RegionRun(mid, Recover(a)));
  }

  /** The same over whole runs: `early` brings the journal to its end by any interleaving, with a projection possibly still
      owed by whoever holds the lock; `late` is whatever follows. */
  lemma WholeRunConverges(w0: World, early: seq<Step>, late: seq<Step>, a: Answers)
    requires Invariant(w0) && w0.holder.None? && Possible(w0, early) && WithoutRechecks(early)
    requires Terminal(After(w0, early)) && Lone(After(w0, early))
    requires Possible(After(w0, early), late) && QuietRun(late)
    requires After(After(w0, early), late).holder.None? && After(After(w0, early), late).record.status != Frozen
    ensures var w' := Complete(Do(After(After(w0, early), late), Recover(a)));
            Converged(w') && w'.record.status == Settlement(After(w0, early)) && w'.file == After(w0, early).file
  {
    RunKeeps(w0, early);
    FinishedIsClosed(w0, early);
    FinishedEndsInOutcome(After(w0, early));
    ConvergesToTheJournal(After(w0, early), late, a);
  }

  lemma FinishedEndsInOutcome(w: World)
    requires Terminal(w)
    ensures w.file.events != [] && Outcome(w.file.events[|w.file.events| - 1])
  {
  }

  // -- the seeded recheck state ----------------------------------------------------------

  predicate Seeds(x: Write) {
    !x.Append? && !x.Spawn? && x.updates.recheckState.Some?
  }

  /** A seed the lock's holder still owes is what the journal's receipt says, and agrees with the record's. */
  predicate SeedsAgree(w: World) {
    w.holder.Some? ==>
      forall i :: 0 <= i < |w.holder.value.todo| && Seeds(w.holder.value.todo[i]) ==>
        var seed := w.holder.value.todo[i].updates.recheckState;
        && (w.record.details.recheckState.Some? ==> seed == w.record.details.recheckState)
        && (forall j :: 0 <= j < |w.holder.value.todo| && Seeds(w.holder.value.todo[j]) ==>
              w.holder.value.todo[j].updates.recheckState == seed)
  }

  lemma SeedingStep(w: World, s: Step)
    requires Settling(w) && SeedsAgree(w) && Enabled(w, s) && Quiet(s)
    ensures SeedsAgree(Do(w, s))
    ensures w.record.details.recheckState.Some? ==> Do(w, s).record.details.recheckState == w.record.details.recheckState
  {
    if w.holder.None? && Do(w, s).holder.Some? {
      SeedingRegion(w, s);
    }
  }

  lemma SeedingRegion(w: World, s: Step)
    requires Settling(w) && Enabled(w, s) && Quiet(s) && w.holder.None? && Do(w, s).holder.Some?
    ensures SeedsAgree(Do(w, s))
  {
    match s
    case Recover(a) => TerminalProjection(w, w.record, a.durable);
    case Prepare(t, durable) => TerminalProjection(w, w.record, durable);
    case RecordOutcome(t, durable) =>
      assert HelperGood(w, t);
      assert "office_" <= "office_job" && "office_" <= "office_create";
    case _ =>
  }

  /** Once seeded, only a recheck changes the recheck state. */
  lemma {:induction false} SeedIsKept(w: World, run: seq<Step>)
    requires Settling(w) && SeedsAgree(w) && Possible(w, run) && QuietRun(run) && w.record.details.recheckState.Some?
    ensures After(w, run).record.details.recheckState == w.record.details.recheckState
    decreases |run|
  {
    if run != [] {
      SeedingStep(w, run[0]);
      SettlingStep(w, run[0]);
      SeedIsKept(Do(w, run[0]), run[1..]);
    }
  }

  // -- a settled record stays settled -------------------------------------------------------

  ghost predicate Converged(w: World) {
    && Settling(w)
    && w.record.status == Settlement(w)
    && (w.holder.Some? ==> QuietTodo(w.record, w.holder.value.todo, Settlement(w)))
  }

  /** Nobody's quiet region writes anything but the settled status again. */
  lemma QuietRegion(w: World, s: Step)
    requires Converged(w) && Enabled(w, s) && Quiet(s) && w.holder.None? && Do(w, s).holder.Some?
    ensures QuietTodo(w.record, Do(w, s).holder.value.todo, Settlement(w))
  {
    match s
    case Recover(a) => TerminalProjection(w, w.record, a.durable);
    case Prepare(t, durable) => TerminalProjection(w, w.record, durable);
    case RecordOutcome(t, durable) =>
      assert HelperGood(w, t);
      assert "office_" <= "office_job" && "office_" <= "office_create";
    case _ =>
  }

  lemma QuietStep(w: World, s: Step)
    requires Converged(w) && Enabled(w, s) && Quiet(s)
    ensures Converged(Do(w, s)) && Do(w, s).file == w.file && Do(w, s).record.status == w.record.status
    ensures w.record.details.recheckState.Some? ==> Do(w, s).record.details.recheckState == w.record.details.recheckState
  {
    SettlingStep(w, s);
    SeedingStep(w, s);
    if w.holder.None? {
      QuietFree(w, s);
    } else {
      QuietHeld(w, s);
    }
  }

  lemma QuietFree(w: World, s: Step)
    requires Converged(w) && Enabled(w, s) && Quiet(s) && Settling(Do(w, s)) && w.holder.None?
    ensures Converged(Do(w, s)) && Do(w, s).record.status == w.record.status
  {
    if Do(w, s).holder.Some? {
      QuietRegion(w, s);
    }
  }

  lemma QuietHeld(w: World, s: Step)
    requires Converged(w) && Enabled(w, s) && Quiet(s) && Settling(Do(w, s)) && w.holder.Some?
    ensures Converged(Do(w, s)) && Do(w, s).record.status == w.record.status
  {
  }

  /** After that no interleaving of recoveries, helpers, claims, rejections, crashes and failed writes moves the status. */
  lemma {:induction false} StaysConverged(w: World, run: seq<Step>)
    requires Converged(w) && Possible(w, run) && QuietRun(run)
    ensures var w' := After(w, run);
            && Converged(w') && w'.file == w.file && w'.record.status == w.record.status
            && (w.record.details.recheckState.Some? ==> w'.record.details.recheckState == w.record.details.recheckState)
    decreases |run|
  {
    if run != [] {
      QuietStep(w, run[0]);
      StaysConverged(Do(w, run[0]), run[1..]);
    }
  }
}

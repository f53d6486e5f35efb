/** What an undisturbed region of each operation makes of the world, said of the world itself. */
module ApprovalEffects {
  import opened Outcomes
  import opened Sequences
  import opened ExecutionState
  import opened ExecutionLedger
  import opened ExecutionJournal
  import opened ApprovalPlans
  import opened ApprovalProtocol
  import opened ApprovalLegality
  import opened ApprovalInvariant
  import opened ApprovalExclusion
  import opened ApprovalLimits
  import opened ApprovalRegions
  import opened ApprovalOutcomes

  // -- a region as a whole ---------------------------------------------------------------

  function RecordAfter(r: Record, todo: seq<Write>): Record
    decreases |todo|
  {
    if todo == [] then r else RecordAfter(Written(r, todo[0]), todo[1..])
  }

  function Launched(todo: seq<Write>): seq<Helper>
    decreases |todo|
  {
    if todo == [] then []
    else (if todo[0].Spawn? then [Helper(todo[0].identity, Waiting)] else []) + Launched(todo[1..])
  }

  lemma {:induction false} Performed(w: World, todo: seq<Write>)
    ensures PerformAll(w, todo)
         == w.(file := w.file.(events := LogAfter(w.file.events, todo)), record := RecordAfter(w.record, todo),
               helpers := w.helpers + Launched(todo))
    decreases |todo|
  {
    if todo != [] {
      Performed(Perform(w, todo[0]), todo[1..]);
      var now := if todo[0].Spawn? then [Helper(todo[0].identity, Waiting)] else [];
      assert Perform(w, todo[0]).helpers == w.helpers + now;
      assert (w.helpers + now) + Launched(todo[1..]) == w.helpers + (now + Launched(todo[1..]));
    } else {
      assert w.helpers + [] == w.helpers;
    }
  }

  /** After an operator's region: these events are new, these helpers are launched, and the record reads `record`. */
  ghost predicate Leaves(w: World, s: Step, events: seq<Event>, launched: seq<Helper>, record: Record) {
    Enabled(w, s) && Do(w, s).holder.Some? &&
    var w' := Complete(Do(w, s));
    && w'.file == File(w.file.events + events, w.file.torn) && w'.helpers == w.helpers + launched && w'.record == record
    && w'.holder.None? && (w'.receipt, w'.started, w'.ended, w'.continuing) == (w.receipt, w.started, w.ended, w.continuing)
  }

  lemma OperatorLeaves(w: World, s: Step, todo: seq<Write>, events: seq<Event>)
    requires w.holder.None? && Enabled(w, s)
    requires Do(w, s) == Enter(w.(observed := Do(w, s).observed), Operator, todo, Quit)
    requires LogAfter(w.file.events, todo) == w.file.events + events
    ensures Leaves(w, s, events, Launched(todo), RecordAfter(w.record, todo))
  {
    var w1 := w.(observed := Do(w, s).observed);
    HolderIsPassive(w1, todo, Do(w, s).holder);
    Performed(w1, todo);
  }

  lemma {:induction false} AfterConcat(log: seq<Event>, r: Record, a: seq<Write>, b: seq<Write>)
    ensures LogAfter(log, a + b) == LogAfter(LogAfter(log, a), b)
    ensures RecordAfter(r, a + b) == RecordAfter(RecordAfter(r, a), b)
    decreases |a|
  {
    if a == [] {
      assert a + b == b;
    } else {
      assert (a + b)[1..] == a[1..] + b && (a + b)[0] == a[0];
      AfterConcat(if a[0].Append? then log + [a[0].event] else log, Written(r, a[0]), a[1..], b);
    }
  }

  lemma {:induction false} LaunchedConcat(a: seq<Write>, b: seq<Write>)
    ensures Launched(a + b) == Launched(a) + Launched(b)
    decreases |a|
  {
    if a == [] {
      assert a + b == b;
    } else {
      assert (a + b)[1..] == a[1..] + b && (a + b)[0] == a[0];
      LaunchedConcat(a[1..], b);
    }
  }

  lemma AppendAfter(log: seq<Event>, r: Record, e: Event, rest: seq<Write>)
    ensures LogAfter(log, [Append(e)] + rest) == LogAfter(log + [e], rest)
    ensures RecordAfter(r, [Append(e)] + rest) == RecordAfter(r, rest)
    ensures Launched([Append(e)] + rest) == Launched(rest)
  {
    assert ([Append(e)] + rest)[1..] == rest;
  }

  /** At most one write of the record. */
  lemma SingleAfter(log: seq<Event>, r: Record, todo: seq<Write>)
    requires |todo| <= 1 && forall x <- todo :: !x.Append? && !x.Spawn?
    ensures LogAfter(log, todo) == log == log + [] && Launched(todo) == []
    ensures RecordAfter(r, todo) == if todo == [] then r else Written(r, todo[0])
  {
    if todo != [] {
      assert todo[0] in todo && todo[1..] == [];
    }
  }

  lemma LaunchAfter(log: seq<Event>, r: Record, token: nat, identity: Identity)
    ensures var launch := LaunchWrites(token, identity);
      && LogAfter(log, launch) == log + [StartedEvent(Owner(Secret(token), identity))]
      && RecordAfter(r, launch) == r && Launched(launch) == [Helper(identity, Waiting)]
  {
    var e := StartedEvent(Owner(Secret(token), identity));
    AppendAfter(log, r, e, []);
    assert [Append(e)] + [] == [Append(e)];
    assert LaunchWrites(token, identity)[1..] == [Append(e)];
  }

  // -- what a finished journal makes of a record ---------------------------------------------

  /** `is` reads as a record that read `was` must once the journal reads `s`. `seen` is what the region knew of it. */
  ghost predicate Reflects(receipt: string -> string, s: Snapshot, seen: Record, durable: Durable, was: Record, now: Record) {
    && (now.authority, now.payloadReadable, now.questionsOpen) == (was.authority, was.payloadReadable, was.questionsOpen)
    && (s.phase == Failed ==>
          now.status == Failure
          && now.details == was.details.(stage := Some(Action), error := if s.error.Some? then s.error else was.details.error))
    && (s.phase == RetryableFailure ==>
          now.status == Pending && now.details == was.details.(error := if s.error.Some? then s.error else was.details.error))
    && (s.phase == OutcomeUnknown ==> now.status == Unconfirmed && now.details.stage == Some(UnknownOutcome) && ReflectsRecheck(receipt, s, seen, was, now))
    && (s.phase == Succeeded && s.category !in {"office_job", "office_create"} && s.result.Some? ==>
          ReflectsSuccess(s.result.value, seen, was, now))
    && (s.phase == Succeeded && s.category in {"office_job", "office_create"} ==>
          match durable
          case Receipt(text) => ReflectsSuccess(text, seen, was, now)
          case NoReceipt => now.status == Frozen && now.details == was.details.(stage := Some(Integrity))
          case Raises => now == was)
  }

  ghost predicate ReflectsSuccess(text: string, seen: Record, was: Record, now: Record) {
    && now.status == (if seen.authority.continuation == Absent then Approved else ResumePending)
    && now.details == was.details.(actionReceipt := Some(text))
  }

  /** A mail that was not submitted can be rechecked, unless somebody has to look at it; the first reading is noted. */
  ghost predicate ReflectsRecheck(receipt: string -> string, s: Snapshot, seen: Record, was: Record, now: Record) {
    && now.details.(stage := None, recheckState := None, recheckable := None)
       == was.details.(stage := None, recheckState := None, recheckable := None)
    && (if s.category == "mail_send" && s.result.Some? && seen.details.recheckState == None
        then
          var state := receipt(s.result.value);
          now.details.recheckState == Some(state) && now.details.recheckable == Some(state != "submitted" && state != "needs_review")
        else now.details.recheckState == was.details.recheckState && now.details.recheckable == was.details.recheckable)
  }

  lemma ProjectionReflects(receipt: string -> string, s: Snapshot, seen: Record, durable: Durable, was: Record)
    requires s.phase in {Succeeded, Failed, RetryableFailure, OutcomeUnknown}
    ensures Reflects(receipt, s, seen, durable, was, RecordAfter(was, ProjectWrites(receipt, s, seen, durable)))
    ensures Launched(ProjectWrites(receipt, s, seen, durable)) == []
  {
    var p := ProjectWrites(receipt, s, seen, durable);
    assert p != [] ==> p == [p[0]] && p[1..] == [];
  }

  /** An outcome appended to an open attempt is read back at once, and the record reflects it. */
  lemma ConcludeReflects(receipt: string -> string, log: seq<Event>, e: Event, seen: Record, durable: Durable, was: Record)
    requires PhaseOf(receipt, log) == Ok(AttemptCommitted) && Conclusive(e)
    ensures var p := Conclude(receipt, log, e, seen, durable);
      && LogAfter(log, p) == log + [e] && Launched(p) == []
      && Reflects(receipt, Snapshot(log[0].authority, log[0].category, KindOf(e).value, None, ResultOf(e), ErrorOf(e)), seen, durable,
                  was, RecordAfter(was, p))
  {
    AppendedReplay(receipt, log, e);
    var s := Replay(receipt, log + [e]).value;
    var p := ProjectWrites(receipt, s, seen, durable);
    AppendAfter(log, was, e, p);
    ProjectNoAppends(receipt, s, seen, durable);
    NoAppendsKeepLog(log + [e], p);
    ProjectionReflects(receipt, s, seen, durable, was);
  }

  // -- recovery ---------------------------------------------------------------------------------

  /** A journal that can be read, of a record that still carries its authority and is not frozen; nobody holds the lock. */
  predicate Readable(w: World) {
    w.holder.None? && w.record.status != Frozen && Load(w.receipt, w.file).Ok? && w.file.events[0].authority == w.record.authority
  }

  predicate InOwnPhase(w: World, phase: Phase) {
    Readable(w) && PhaseOf(w.receipt, w.file.events) == Ok(phase)
  }

  /** The process that the journal's last event names is there, and is the same process. */
  predicate OwnerLives(w: World, a: Answers)
    requires w.file.events != [] && OwnerOf(w.file.events[|w.file.events| - 1]).Some?
  {
    var it := OwnerOf(w.file.events[|w.file.events| - 1]).value.identity;
    it.generation.Some? && it.pid in a.processes && a.processes[it.pid] == it.generation.value
  }

  /** The launch of the next helper: its process, and the event that binds it. */
  function NextHelper(a: Answers): Helper {
    Helper(a.spawned, Waiting)
  }

  function NextStart(w: World, a: Answers): Event {
    StartedEvent(Owner(Secret(|w.helpers|), a.spawned))
  }

  lemma RecoverEnters(w: World, a: Answers, todo: seq<Write>, events: seq<Event>)
    requires w.holder.None? && todo == RecoverWrites(w.receipt, w.file, w.record, |w.helpers|, a)
    requires LogAfter(w.file.events, todo) == w.file.events + events
    ensures Leaves(w, Recover(a), events, Launched(todo), RecordAfter(w.record, todo))
  {
    OperatorLeaves(w, Recover(a), todo, events);
  }

  /** An attempt that lost its owner is concluded with `e`, unless it is Office work. */
  lemma DeadAttemptConcludes(w: World, a: Answers, e: Event)
    requires InOwnPhase(w, AttemptCommitted) && !OwnerLives(w, a) && !IsOffice(w.file.events[0].category)
    requires e == if w.file.events[0].category == MAIL then ReconcileEvent(w.receipt, a.reconciled) else UnknownEvent(None)
    ensures var (log, now) := (w.file.events, Complete(Do(w, Recover(a))).record);
      && Leaves(w, Recover(a), [e], [], now)
      && Reflects(w.receipt, Snapshot(log[0].authority, log[0].category, KindOf(e).value, None, ResultOf(e), ErrorOf(e)),
                  w.record, a.durable, w.record, now)
  {
    DeadAttemptPlan(w, a, e);
    ConcludeReflects(w.receipt, w.file.events, e, w.record, a.durable, w.record);
    RecoverEnters(w, a, Conclude(w.receipt, w.file.events, e, w.record, a.durable), [e]);
  }

  lemma DeadAttemptPlan(w: World, a: Answers, e: Event)
    requires InOwnPhase(w, AttemptCommitted) && !OwnerLives(w, a) && !IsOffice(w.file.events[0].category)
    requires e == if w.file.events[0].category == MAIL then ReconcileEvent(w.receipt, a.reconciled) else UnknownEvent(None)
    ensures RecoverWrites(w.receipt, w.file, w.record, |w.helpers|, a) == Conclude(w.receipt, w.file.events, e, w.record, a.durable)
  {
  }

  /** Nobody knows whether an attempt that lost its owner did anything: the outcome is unknown, and nothing is tried again.
      Mail can be asked for and Office work can be resumed; this is everything else. */
  lemma DeadAttemptIsUnknown(w: World, a: Answers)
    requires InOwnPhase(w, AttemptCommitted) && !OwnerLives(w, a)
    requires w.file.events[0].category != "mail_send" && !IsOffice(w.file.events[0].category)
    ensures var now := Complete(Do(w, Recover(a))).record;
      && Leaves(w, Recover(a), [UnknownEvent(None)], [], now)
      && now.status == Unconfirmed && now.details == w.record.details.(stage := Some(UnknownOutcome))
    ensures InPhase(w.receipt, Complete(Do(w, Recover(a))).file, OutcomeUnknown)
  {
    DeadAttemptConcludes(w, a, UnknownEvent(None));
    AppendedReplay(w.receipt, w.file.events, UnknownEvent(None));
  }

  /** A mail is settled by what its mailbox says, if it says anything. */
  lemma DeadMailIsAsked(w: World, a: Answers)
    requires InOwnPhase(w, AttemptCommitted) && !OwnerLives(w, a) && w.file.events[0].category == "mail_send"
    ensures var now := Complete(Do(w, Recover(a))).record;
      match a.reconciled
      case Observed(text) =>
        if w.receipt(text) == "submitted"
        then Leaves(w, Recover(a), [SucceededEvent(Cut(text))], [], now) && ReflectsSuccess(Cut(text), w.record, w.record, now)
        else Leaves(w, Recover(a), [UnknownEvent(Some(Cut(text)))], [], now) && now.status == Unconfirmed
             && (w.record.details.recheckState == None ==> now.details.recheckState == Some(w.receipt(Cut(text))))
      case Unreachable => Leaves(w, Recover(a), [UnknownEvent(None)], [], now) && now.status == Unconfirmed
      case Unverifiable => Leaves(w, Recover(a), [UnknownEvent(Some("{\"state\": \"needs_review\"}"))], [], now) && now.status == Unconfirmed
  {
    assert MAIL[0] != "office_"[0];
    DeadAttemptConcludes(w, a, ReconcileEvent(w.receipt, a.reconciled));
  }

  /** An Office attempt that lost its owner is made ready again, and a fresh helper is bound to it. */
  lemma DeadOfficeIsResumed(w: World, a: Answers)
    requires InOwnPhase(w, AttemptCommitted) && !OwnerLives(w, a) && IsOffice(w.file.events[0].category)
    ensures Leaves(w, Recover(a), [ReadyEvent, NextStart(w, a)], [NextHelper(a)], w.record)
  {
    assert MAIL[0] != "office_"[0];
    AppendAfter(w.file.events, w.record, ReadyEvent, []);
    assert [Append(ReadyEvent)] + [] == [Append(ReadyEvent)];
    LaunchLeaves(w, a, [Append(ReadyEvent)], [ReadyEvent], w.record);
    assert [ReadyEvent] + [NextStart(w, a)] == [ReadyEvent, NextStart(w, a)];
  }

  lemma LaunchLeaves(w: World, a: Answers, opening: seq<Write>, events: seq<Event>, record: Record)
    requires w.holder.None?
    requires RecoverWrites(w.receipt, w.file, w.record, |w.helpers|, a) == opening + LaunchWrites(|w.helpers|, a.spawned)
    requires LogAfter(w.file.events, opening) == w.file.events + events && RecordAfter(w.record, opening) == record && Launched(opening) == []
    ensures Leaves(w, Recover(a), events + [NextStart(w, a)], [NextHelper(a)], record)
  {
    var launch := LaunchWrites(|w.helpers|, a.spawned);
    AfterConcat(w.file.events, w.record, opening, launch);
    LaunchedConcat(opening, launch);
    LaunchAfter(w.file.events + events, record, |w.helpers|, a.spawned);
    Assoc(w.file.events, events, [NextStart(w, a)]);
    RecoverEnters(w, a, opening + launch, events + [NextStart(w, a)]);
  }

  /** An action not attempted yet is launched: from an armed journal it is made ready first, and a launch is repeated
      once its helper is gone. */
  lemma UnstartedIsLaunched(w: World, a: Answers)
    requires InOwnPhase(w, Armed) || InOwnPhase(w, Ready) || (InOwnPhase(w, HelperStarted) && !OwnerLives(w, a))
    ensures if InOwnPhase(w, Armed)
            then Leaves(w, Recover(a), [ReadyEvent, NextStart(w, a)], [NextHelper(a)], w.record.(status := Executing))
            else Leaves(w, Recover(a), [NextStart(w, a)], [NextHelper(a)], w.record)
  {
    var launch := LaunchWrites(|w.helpers|, a.spawned);
    if InOwnPhase(w, Armed) {
      var opening := [Append(ReadyEvent), Resolve(Executing, NO_DETAILS)];
      AppendAfter(w.file.events, w.record, ReadyEvent, [opening[1]]);
      assert opening == [Append(ReadyEvent)] + [opening[1]] && [opening[1]][1..] == [];
      assert Overlay(w.record.details, NO_DETAILS) == w.record.details;
      LaunchLeaves(w, a, opening, [ReadyEvent], w.record.(status := Executing));
      assert [ReadyEvent] + [NextStart(w, a)] == [ReadyEvent, NextStart(w, a)];
    } else {
      assert [] + launch == launch && w.file.events + [] == w.file.events;
      LaunchLeaves(w, a, [], [], w.record);
      assert [] + [NextStart(w, a)] == [NextStart(w, a)];
    }
  }

  /** While its owner lives, recovery keeps its hands off an attempt. */
  lemma LiveIsLeftAlone(w: World, a: Answers)
    requires (InOwnPhase(w, HelperStarted) || InOwnPhase(w, AttemptCommitted)) && OwnerLives(w, a)
    ensures Leaves(w, Recover(a), [], [], w.record)
  {
    var todo := RecoverWrites(w.receipt, w.file, w.record, |w.helpers|, a);
    SingleAfter(w.file.events, w.record, todo);
    RecoverEnters(w, a, todo, []);
  }

  /** A finished journal is reflected by the record, and stays as it is. */
  lemma FinishedIsReflected(w: World, a: Answers)
    requires Readable(w) && Load(w.receipt, w.file).value.phase in {Succeeded, Failed, RetryableFailure, OutcomeUnknown}
    ensures var now := Complete(Do(w, Recover(a))).record;
      && Leaves(w, Recover(a), [], [], now)
      && Reflects(w.receipt, Load(w.receipt, w.file).value, w.record, a.durable, w.record, now)
  {
    var s := Load(w.receipt, w.file).value;
    var todo := ProjectWrites(w.receipt, s, w.record, a.durable);
    ProjectionReflects(w.receipt, s, w.record, a.durable, w.record);
    SingleAfter(w.file.events, w.record, todo);
    RecoverEnters(w, a, todo, []);
  }

  /** A journal that cannot be read, or is not the record's own, freezes the record; a frozen record is left alone. */
  lemma DoubtfulIsFrozen(w: World, a: Answers)
    requires w.holder.None? && Exists(w.file)
    requires w.record.status == Frozen || Load(w.receipt, w.file).Err? || w.file.events[0].authority != w.record.authority
    ensures Leaves(w, Recover(a), [], [],
                   if w.record.status == Frozen then w.record
                   else w.record.(status := Frozen, details := w.record.details.(stage := Some(Integrity))))
  {
    var todo := RecoverWrites(w.receipt, w.file, w.record, |w.helpers|, a);
    SingleAfter(w.file.events, w.record, todo);
    RecoverEnters(w, a, todo, []);
  }

  // -- a record without a journal ------------------------------------------------------------------

  /** A version without journals left either a claim, which is undone, or an execution, whose outcome is what its old
      receipt proves and is journalled under nobody's name; an Office job is launched again instead. */
  lemma MissingIsMigrated(w: World, a: Answers)
    requires w.holder.None? && !Exists(w.file) && w.record.status != Frozen
    ensures var (r, now) := (w.record, Complete(Do(w, Recover(a))).record);
      var sealed := [ArmedEvent(r.authority, r.authority.category), ReadyEvent];
      if r.status == Executing && r.payloadReadable then
        if r.authority.category == "office_job" then Leaves(w, Recover(a), sealed + [NextStart(w, a)], [NextHelper(a)], r)
        else
          var e := if a.legacy.None? then UnknownEvent(None)
                   else if r.authority.category == "mail_send" && w.receipt(a.legacy.value) != "submitted"
                   then UnknownEvent(Some(Cut(a.legacy.value))) else SucceededEvent(Cut(a.legacy.value));
          Leaves(w, Recover(a), sealed + [CommittedEvent(Owner(Local, Identity(0, None))), e], [], now)
          && (e.UnknownEvent? ==> now.status == Unconfirmed)
          && (e.SucceededEvent? && r.authority.category != "office_create" ==>
                now.status == if r.authority.continuation == Absent then Approved else ResumePending)
      else Leaves(w, Recover(a), [], [], if r.status == Approving then r.(status := Pending) else r)
  {
    var r := w.record;
    if r.status == Executing && r.payloadReadable {
      if r.authority.category == "office_job" {
        OfficeJobIsMigrated(w, a);
      } else {
        ExecutionIsMigrated(w, a);
      }
    } else {
      var todo := RecoverWrites(w.receipt, w.file, r, |w.helpers|, a);
      SingleAfter(w.file.events, r, todo);
      assert Overlay(r.details, NO_DETAILS) == r.details;
      RecoverEnters(w, a, todo, []);
    }
  }

  lemma SealedAfter(w: World, authority: Authority)
    requires !Exists(w.file)
    ensures var sealed := [ArmedEvent(authority, authority.category), ReadyEvent];
      var opening := [Append(sealed[0]), Append(sealed[1])];
      && LogAfter(w.file.events, opening) == w.file.events + sealed == sealed && RecordAfter(w.record, opening) == w.record
      && Launched(opening) == [] && PhaseOf(w.receipt, sealed) == Ok(Ready)
  {
    var armed := ArmedEvent(authority, authority.category);
    AppendAfter([armed], w.record, ReadyEvent, []);
    AppendAfter([], w.record, armed, [Append(ReadyEvent)]);
    assert [Append(ReadyEvent)] + [] == [Append(ReadyEvent)];
    assert [Append(armed)] + [Append(ReadyEvent)] == [Append(armed), Append(ReadyEvent)];
    assert [] + [armed] == [armed] && [armed] + [ReadyEvent] == [armed, ReadyEvent];
    AppendedReplay(w.receipt, [armed], ReadyEvent);
  }

  lemma OfficeJobIsMigrated(w: World, a: Answers)
    requires w.holder.None? && !Exists(w.file) && w.record.status == Executing && w.record.payloadReadable
    requires w.record.authority.category == "office_job"
    ensures Leaves(w, Recover(a), [ArmedEvent(w.record.authority, "office_job"), ReadyEvent] + [NextStart(w, a)], [NextHelper(a)], w.record)
  {
    var sealed := [ArmedEvent(w.record.authority, "office_job"), ReadyEvent];
    var opening := [Append(sealed[0]), Append(sealed[1])];
    SealedAfter(w, w.record.authority);
    assert RecoverLoaded(w.receipt, File(sealed, false), w.record, |w.helpers|, a) == LaunchWrites(|w.helpers|, a.spawned);
    LaunchLeaves(w, a, opening, sealed, w.record);
  }

  /** The old outcome is journalled and reflected; the same recovery then reflects it once more, to the same effect. */
  lemma ExecutionIsMigrated(w: World, a: Answers)
    requires w.holder.None? && !Exists(w.file) && w.record.status == Executing && w.record.payloadReadable
    requires w.record.authority.category != "office_job"
    ensures var (r, now) := (w.record, Complete(Do(w, Recover(a))).record);
      var e := LegacyEvent(w.receipt, r.authority.category, a);
      && Leaves(w, Recover(a), [ArmedEvent(r.authority, r.authority.category), ReadyEvent] + [CommittedEvent(Owner(Local, Identity(0, None))), e], [], now)
      && (e.UnknownEvent? ==> now.status == Unconfirmed)
      && (e.SucceededEvent? && r.authority.category != "office_create" ==>
            now.status == if r.authority.continuation == Absent then Approved else ResumePending)
  {
    var r := w.record;
    var commit := CommittedEvent(LOCAL_OWNER);
    var e := LegacyEvent(w.receipt, r.authority.category, a);
    var sealed := [ArmedEvent(r.authority, r.authority.category), ReadyEvent];
    var opening := [Append(sealed[0]), Append(sealed[1])];
    var settle := SettleWrites(w.receipt, sealed, e, r, a.durable);
    var file := File(sealed + [commit, e], false);
    var again := RecoverLoaded(w.receipt, file, r, |w.helpers|, a);
    SealedAfter(w, r.authority);
    LegacySettles(w.receipt, sealed, e, r, a);
    LegacyIsReadAgain(w.receipt, sealed + [commit, e], r, RecordAfter(r, settle), |w.helpers|, a);
    AfterConcat(sealed, r, settle, again);
    LaunchedConcat(settle, again);
    AfterConcat(w.file.events, r, opening, settle + again);
    LaunchedConcat(opening, settle + again);
    RecoverEnters(w, a, opening + (settle + again), sealed + [commit, e]);
  }

  lemma LegacySettles(receipt: string -> string, sealed: seq<Event>, e: Event, r: Record, a: Answers)
    requires PhaseOf(receipt, sealed) == Ok(Ready) && sealed[0].category == r.authority.category
    requires e == LegacyEvent(receipt, r.authority.category, a)
    ensures var commit := CommittedEvent(LOCAL_OWNER);
      var settle := SettleWrites(receipt, sealed, e, r, a.durable);
      && LogAfter(sealed, settle) == sealed + [commit, e] && Launched(settle) == []
      && RecordAfter(r, settle).authority == r.authority && RecordAfter(r, settle).payloadReadable == r.payloadReadable
      && PhaseOf(receipt, sealed + [commit, e]) == Ok(KindOf(e).value)
  {
    var commit := CommittedEvent(LOCAL_OWNER);
    var open := sealed + [commit];
    LegacyCommits(receipt, sealed, e);
    ConcludeReflects(receipt, open, e, r, a.durable, r);
    AppendAfter(sealed, r, commit, Conclude(receipt, open, e, r, a.durable));
    assert open + [e] == sealed + [commit, e];
  }

  lemma LegacyCommits(receipt: string -> string, sealed: seq<Event>, e: Event)
    requires PhaseOf(receipt, sealed) == Ok(Ready) && (e.SucceededEvent? || e.UnknownEvent?)
    ensures var open := sealed + [CommittedEvent(LOCAL_OWNER)];
      && PhaseOf(receipt, open) == Ok(AttemptCommitted) && PhaseOf(receipt, open + [e]) == Ok(KindOf(e).value)
      && open[0] == sealed[0]
  {
    AppendedReplay(receipt, sealed, CommittedEvent(LOCAL_OWNER));
    AppendedReplay(receipt, sealed + [CommittedEvent(LOCAL_OWNER)], e);
  }

  /** Whatever the record says by then, reading the journal of an old execution again gives it the final status. */
  lemma LegacyIsReadAgain(receipt: string -> string, log: seq<Event>, r: Record, was: Record, token: nat, a: Answers)
    requires PhaseOf(receipt, log).Ok? && PhaseOf(receipt, log).value in {Succeeded, OutcomeUnknown} && log[0].authority == r.authority
    ensures var again := RecoverLoaded(receipt, File(log, false), r, token, a);
      var now := RecordAfter(was, again);
      && LogAfter(log, again) == log && Launched(again) == []
      && (PhaseOf(receipt, log) == Ok(OutcomeUnknown) ==> now.status == Unconfirmed)
      && (PhaseOf(receipt, log) == Ok(Succeeded) && log[0].category !in {"office_job", "office_create"} ==>
            now.status == if r.authority.continuation == Absent then Approved else ResumePending)
  {
    var s := Replay(receipt, log).value;
    ProjectNoAppends(receipt, s, r, a.durable);
    NoAppendsKeepLog(log, ProjectWrites(receipt, s, r, a.durable));
    ProjectionReflects(receipt, s, r, a.durable, was);
  }

  // -- a helper's regions -------------------------------------------------------------------------------

  /** After a region of helper `t`: these events are new, the record reads `record`, and the helper is at `pc`. */
  ghost predicate HelperLeaves(w: World, s: Step, t: nat, events: seq<Event>, record: Record, pc: Pc) {
    t < |w.helpers| && Enabled(w, s) && Do(w, s).holder.Some? &&
    var w' := Complete(Do(w, s));
    && w'.file == File(w.file.events + events, w.file.torn) && w'.record == record
    && w'.helpers == w.helpers[t := w.helpers[t].(pc := pc)] && w'.holder.None?
    && (w'.receipt, w'.started, w'.ended, w'.continuing, w'.observed) == (w.receipt, w.started, w.ended, w.continuing, w.observed)
  }

  /** The helper of a region that ends: it goes on if it was let through, and is gone otherwise. */
  function Next(pc: Pc, verdict: Verdict): Pc {
    if pc.Preparing? && verdict == Proceed then Prepared(pc.seen) else Exited
  }

  lemma HelperRegion(w: World, s: Step, t: nat, pc: Pc, todo: seq<Write>, verdict: Verdict, events: seq<Event>)
    requires Enabled(w, s) && t < |w.helpers|
    requires Do(w, s) == Enter(At(w, t, pc), Process(t), todo, verdict) && w.holder.None?
    requires LogAfter(w.file.events, todo) == w.file.events + events && Launched(todo) == []
    ensures HelperLeaves(w, s, t, events, RecordAfter(w.record, todo), Next(pc, verdict))
  {
    var w1 := At(w, t, pc);
    HolderIsPassive(w1, todo, Do(w, s).holder);
    Performed(w1, todo);
    assert w1.helpers + [] == w1.helpers;
  }

  lemma PrepareEnters(w: World, t: nat, durable: Durable, todo: seq<Write>, verdict: Verdict, events: seq<Event>)
    requires Enabled(w, Prepare(t, durable))
    requires (todo, verdict) == PrepareWrites(w.receipt, w.file, w.record, Owner(Secret(t), w.helpers[t].identity), durable)
    requires LogAfter(w.file.events, todo) == w.file.events + events && Launched(todo) == []
    ensures var loaded := Load(w.receipt, w.file);
      var seen := Seen(w.record, if loaded.Ok? then loaded.value.category else "");
      HelperLeaves(w, Prepare(t, durable), t, events, RecordAfter(w.record, todo), if verdict == Proceed then Prepared(seen) else Exited)
  {
    var loaded := Load(w.receipt, w.file);
    var seen := Seen(w.record, if loaded.Ok? then loaded.value.category else "");
    HelperRegion(w, Prepare(t, durable), t, Preparing(seen), todo, verdict, events);
  }

  /** A helper whose launch is the one the journal waits for commits the attempt in its own name, and may act. */
  lemma BoundHelperCommits(w: World, t: nat, durable: Durable)
    requires Enabled(w, Prepare(t, durable)) && Load(w.receipt, w.file).Ok? && w.file.events[0].authority == w.record.authority
    requires var last := w.file.events[|w.file.events| - 1];
      last.ReadyEvent? || ((last.StartedEvent? || last.CommittedEvent?) && last.owner.token == Secret(t))
    ensures var last := w.file.events[|w.file.events| - 1];
      var me := Owner(Secret(t), w.helpers[t].identity);
      var events := if last.ReadyEvent? then [CommittedEvent(me)]
                    else if last.StartedEvent? then [StartedEvent(me), CommittedEvent(me)] else [];
      HelperLeaves(w, Prepare(t, durable), t, events, w.record, Prepared(Seen(w.record, w.file.events[0].category)))
  {
    var me := Owner(Secret(t), w.helpers[t].identity);
    var (todo, verdict) := PrepareWrites(w.receipt, w.file, w.record, me, durable);
    var log := w.file.events;
    AppendAfter(log, w.record, CommittedEvent(me), []);
    AppendAfter(log + [StartedEvent(me)], w.record, CommittedEvent(me), []);
    AppendAfter(log, w.record, StartedEvent(me), [Append(CommittedEvent(me))]);
    assert [Append(CommittedEvent(me))] + [] == [Append(CommittedEvent(me))];
    assert [Append(StartedEvent(me))] + [Append(CommittedEvent(me))] == [Append(StartedEvent(me)), Append(CommittedEvent(me))];
    assert (log + [StartedEvent(me)]) + [CommittedEvent(me)] == log + [StartedEvent(me), CommittedEvent(me)] && log + [] == log;
    var last := log[|log| - 1];
    PrepareEnters(w, t, durable, todo, verdict,
                  if last.ReadyEvent? then [CommittedEvent(me)]
                  else if last.StartedEvent? then [StartedEvent(me), CommittedEvent(me)] else []);
  }

  /** Every other helper is turned away without a trace in the journal: the record is frozen if it is not the one that was
      sealed, reflects the journal if that is finished, and stays as it is otherwise. */
  lemma OtherHelperIsTurnedAway(w: World, t: nat, durable: Durable)
    requires Enabled(w, Prepare(t, durable))
    requires Load(w.receipt, w.file).Ok? && w.file.events[0].authority == w.record.authority ==>
      var last := w.file.events[|w.file.events| - 1];
      !last.ReadyEvent? && (last.StartedEvent? || last.CommittedEvent? ==> last.owner.token != Secret(t))
    ensures var now := Complete(Do(w, Prepare(t, durable))).record;
      && HelperLeaves(w, Prepare(t, durable), t, [], now, Exited)
      && match Load(w.receipt, w.file)
         case Err(_) => now == w.record
         case Ok(s) =>
           if s.authority != w.record.authority
           then now == w.record.(status := Frozen, details := w.record.details.(stage := Some(Integrity)))
           else if s.phase in {Succeeded, Failed, RetryableFailure, OutcomeUnknown}
           then Reflects(w.receipt, s, w.record, durable, w.record, now)
           else now == w.record
  {
    var (todo, verdict) := PrepareWrites(w.receipt, w.file, w.record, Owner(Secret(t), w.helpers[t].identity), durable);
    if Load(w.receipt, w.file).Ok? && Load(w.receipt, w.file).value.phase in {Succeeded, Failed, RetryableFailure, OutcomeUnknown} {
      ProjectionReflects(w.receipt, Load(w.receipt, w.file).value, w.record, durable, w.record);
    }
    SingleAfter(w.file.events, w.record, todo);
    PrepareEnters(w, t, durable, todo, verdict, []);
  }

  // -- recording how an action ended ----------------------------------------------------------------------

  lemma RecordEnters(w: World, t: nat, durable: Durable, events: seq<Event>)
    requires Enabled(w, RecordOutcome(t, durable))
    requires var pc := w.helpers[t].pc;
      var todo := OutcomeWrites(w.receipt, w.file, pc.seen.record, pc.seen.category, pc.outcome, durable);
      LogAfter(w.file.events, todo) == w.file.events + events && Launched(todo) == []
    ensures var pc := w.helpers[t].pc;
      var todo := OutcomeWrites(w.receipt, w.file, pc.seen.record, pc.seen.category, pc.outcome, durable);
      HelperLeaves(w, RecordOutcome(t, durable), t, events, RecordAfter(w.record, todo), Exited)
  {
    var pc := w.helpers[t].pc;
    var todo := OutcomeWrites(w.receipt, w.file, pc.seen.record, pc.seen.category, pc.outcome, durable);
    HelperRegion(w, RecordOutcome(t, durable), t, Recording, todo, Quit, events);
  }

  /** What the record reads once its helper has recorded `e`: the follow-up question is noted first, if there is one. */
  lemma EventIsRecorded(w: World, t: nat, durable: Durable, e: Event)
    requires Invariant(w) && Enabled(w, RecordOutcome(t, durable)) && InPhase(w.receipt, w.file, AttemptCommitted)
    requires Records(w.receipt, w.file.events[0].category, w.helpers[t].pc.outcome, e)
    ensures var (log, pc) := (w.file.events, w.helpers[t].pc);
      var now := Complete(Do(w, RecordOutcome(t, durable))).record;
      var noted := CouldOverwrite(log[0].category, pc.outcome) && pc.outcome.followUp.Ok?;
      var was := if noted then w.record.(status := Executing, details := w.record.details.(followUp := Some(pc.outcome.followUp.value))) else w.record;
      && HelperLeaves(w, RecordOutcome(t, durable), t, [e], now, Exited)
      && Reflects(w.receipt, Snapshot(log[0].authority, log[0].category, KindOf(e).value, None, ResultOf(e), ErrorOf(e)),
                  pc.seen.record, durable, was, now)
  {
    var (log, pc) := (w.file.events, w.helpers[t].pc);
    var conclude := Conclude(w.receipt, log, e, pc.seen.record, durable);
    var noted := CouldOverwrite(log[0].category, pc.outcome) && pc.outcome.followUp.Ok?;
    var prefix := if noted then [OverwriteNote(pc.outcome.followUp.value)] else [];
    assert HelperGood(w, t);
    OutcomePlan(w.receipt, w.file, pc.seen.record, log[0].category, pc.outcome, durable, e);
    SingleAfter(log, w.record, prefix);
    ConcludeReflects(w.receipt, log, e, pc.seen.record, durable, RecordAfter(w.record, prefix));
    AfterConcat(log, w.record, prefix, conclude);
    LaunchedConcat(prefix, conclude);
    RecordEnters(w, t, durable, [e]);
  }

  lemma OutcomePlan(receipt: string -> string, file: File, seen: Record, category: string, outcome: ActionOutcome, durable: Durable, e: Event)
    requires InPhase(receipt, file, AttemptCommitted) && Records(receipt, category, outcome, e)
    ensures var noted := CouldOverwrite(category, outcome) && outcome.followUp.Ok?;
      OutcomeWrites(receipt, file, seen, category, outcome, durable)
      == (if noted then [OverwriteNote(outcome.followUp.value)] else []) + Conclude(receipt, file.events, e, seen, durable)
  {
    OutcomeEventIff(receipt, category, outcome, e);
    assert [] + Conclude(receipt, file.events, e, seen, durable) == Conclude(receipt, file.events, e, seen, durable);
  }

  /** What returned succeeded, but for a mail that was not submitted, of which nothing is certain. */
  lemma ReturnIsRecorded(w: World, t: nat, durable: Durable)
    requires Invariant(w) && Enabled(w, RecordOutcome(t, durable)) && InPhase(w.receipt, w.file, AttemptCommitted)
    requires w.helpers[t].pc.outcome.Returned?
    ensures var (category, text, seen) := (w.file.events[0].category, w.helpers[t].pc.outcome.result, w.helpers[t].pc.seen.record);
      var now := Complete(Do(w, RecordOutcome(t, durable))).record;
      if category == "mail_send" && w.receipt(text) != "submitted"
      then HelperLeaves(w, RecordOutcome(t, durable), t, [UnknownEvent(Some(Cut(text)))], now, Exited) && now.status == Unconfirmed
      else HelperLeaves(w, RecordOutcome(t, durable), t, [SucceededEvent(Cut(text))], now, Exited)
           && (category !in {"office_job", "office_create"} ==> ReflectsSuccess(Cut(text), seen, w.record, now))
           && (category in {"office_job", "office_create"} && durable.Receipt? ==> ReflectsSuccess(durable.text, seen, w.record, now))
  {
    var (category, text) := (w.file.events[0].category, w.helpers[t].pc.outcome.result);
    var e := if category == "mail_send" && w.receipt(text) != "submitted" then UnknownEvent(Some(Cut(text))) else SucceededEvent(Cut(text));
    EventIsRecorded(w, t, durable, e);
  }

  /** What raised failed, and only a cron job that found its store busy may be tried again. */
  lemma FailureIsRecorded(w: World, t: nat, durable: Durable)
    requires Invariant(w) && Enabled(w, RecordOutcome(t, durable)) && InPhase(w.receipt, w.file, AttemptCommitted)
    requires w.helpers[t].pc.outcome.StoreBusy? || w.helpers[t].pc.outcome.OtherFailure?
    ensures var (category, outcome) := (w.file.events[0].category, w.helpers[t].pc.outcome);
      var now := Complete(Do(w, RecordOutcome(t, durable))).record;
      if outcome.StoreBusy? && category == "cron"
      then HelperLeaves(w, RecordOutcome(t, durable), t, [RetryableEvent(Cut(outcome.error))], now, Exited) && now.status == Pending
      else HelperLeaves(w, RecordOutcome(t, durable), t, [FailedEvent(Cut(outcome.error))], now, Exited) && now.status == Failure
           && now.details == w.record.details.(stage := Some(Action), error := Some(Cut(outcome.error)))
  {
    var (category, outcome) := (w.file.events[0].category, w.helpers[t].pc.outcome);
    assert !(outcome.StoreBusy? && category == "cron") ==> FailsWith(category, outcome, outcome.error);
    EventIsRecorded(w, t, durable, if outcome.StoreBusy? && category == "cron" then RetryableEvent(Cut(outcome.error)) else FailedEvent(Cut(outcome.error)));
  }

  /** A document error leaves the attempt open exactly if it can be resumed; else it failed, with a question to the user
      if an output is in the way. */
  lemma DocumentErrorIsRecorded(w: World, t: nat, durable: Durable)
    requires Invariant(w) && Enabled(w, RecordOutcome(t, durable)) && InPhase(w.receipt, w.file, AttemptCommitted)
    requires w.helpers[t].pc.outcome.DocumentFailure?
    ensures var (category, outcome) := (w.file.events[0].category, w.helpers[t].pc.outcome);
      var now := Complete(Do(w, RecordOutcome(t, durable))).record;
      if LeftOpen(category, outcome) then HelperLeaves(w, RecordOutcome(t, durable), t, [], w.record, Exited)
      else
        var asked := CouldOverwrite(category, outcome);
        var text := Cut(if asked && outcome.followUp.Err? then outcome.followUp.error else outcome.error);
        && HelperLeaves(w, RecordOutcome(t, durable), t, [FailedEvent(text)], now, Exited) && now.status == Failure
        && now.details.error == Some(text) && now.details.stage == Some(Action)
        && now.details.followUp == if asked && outcome.followUp.Ok? then Some(outcome.followUp.value) else w.record.details.followUp
  {
    var (category, outcome) := (w.file.events[0].category, w.helpers[t].pc.outcome);
    assert HelperGood(w, t);
    if LeftOpen(category, outcome) {
      OutcomeEventIff(w.receipt, category, outcome, ReadyEvent);
      SingleAfter(w.file.events, w.record, []);
      RecordEnters(w, t, durable, []);
    } else {
      var text := if CouldOverwrite(category, outcome) && outcome.followUp.Err? then outcome.followUp.error else outcome.error;
      assert FailsWith(category, outcome, text);
      EventIsRecorded(w, t, durable, FailedEvent(Cut(text)));
    }
  }

  /** An outcome that comes too late, for an attempt that is no longer open, leaves the journal alone. */
  lemma LateOutcomeIsDropped(w: World, t: nat, durable: Durable)
    requires Invariant(w) && Enabled(w, RecordOutcome(t, durable)) && !InPhase(w.receipt, w.file, AttemptCommitted)
    ensures var (outcome, now) := (w.helpers[t].pc.outcome, Complete(Do(w, RecordOutcome(t, durable))).record);
      && HelperLeaves(w, RecordOutcome(t, durable), t, [], now, Exited)
      && now == if CouldOverwrite(w.helpers[t].pc.seen.category, outcome) && outcome.followUp.Ok?
                then w.record.(status := Executing, details := w.record.details.(followUp := Some(outcome.followUp.value)))
                else w.record
  {
    var pc := w.helpers[t].pc;
    var todo := OutcomeWrites(w.receipt, w.file, pc.seen.record, pc.seen.category, pc.outcome, durable);
    SingleAfter(w.file.events, w.record, todo);
    RecordEnters(w, t, durable, []);
  }

  // -- the operators' regions -----------------------------------------------------------------------------

  /** A pending action is claimed unless questions are open; a claim is undone and a pending action rejected; nothing else moves. */
  lemma ClaimsAndRejections(w: World)
    requires w.holder.None?
    ensures Leaves(w, Claim, [], [],
                   if w.record.status == Pending && !w.record.questionsOpen && w.record.authority.category != "workflow"
                   then w.record.(status := Approving) else w.record)
    ensures Leaves(w, Restore, [], [], if w.record.status == Approving then w.record.(status := Pending) else w.record)
    ensures Leaves(w, Reject, [], [], if w.record.status == Pending then w.record.(status := Rejected) else w.record)
  {
    assert Overlay(w.record.details, NO_DETAILS) == w.record.details;
    SingleAfter(w.file.events, w.record, ClaimWrites(w.record));
    SingleAfter(w.file.events, w.record, RestoreWrites(w.record));
    SingleAfter(w.file.events, w.record, RejectWrites(w.record));
    OperatorLeaves(w, Claim, ClaimWrites(w.record), []);
    OperatorLeaves(w, Restore, RestoreWrites(w.record), []);
    OperatorLeaves(w, Reject, RejectWrites(w.record), []);
  }

  /** Whether a claimed action may be sealed at all. */
  predicate Sealable(r: Record) {
    r.status == Approving && r.authority.continuation != Malformed && r.payloadReadable
  }

  /** A cron journal whose last attempt failed retryably, and whose record still carries what was sealed. */
  predicate Retries(w: World) {
    InPhase(w.receipt, w.file, RetryableFailure) && w.file.events[0].category == "cron" && w.file.events[0].authority == w.record.authority
  }

  /** A claimed action gets its journal, armed and ready, or one more attempt of a retryable cron job; a continuation that
      cannot be read fails it, a payload that cannot be read freezes it, and any other journal is left alone. */
  lemma SealingLeaves(w: World)
    requires w.holder.None?
    ensures var r := w.record;
      if Sealable(r) && !Exists(w.file)
      then Leaves(w, Seal, [ArmedEvent(r.authority, r.authority.category), ReadyEvent], [], r.(status := Executing))
      else if Sealable(r) && Retries(w) then Leaves(w, Seal, [ReadyEvent], [], r.(status := Executing))
      else if r.status == Approving && r.authority.continuation == Malformed
      then Leaves(w, Seal, [], [], r.(status := Failure, details := r.details.(stage := Some(Validation))))
      else if r.status == Approving && !r.payloadReadable
      then Leaves(w, Seal, [], [], r.(status := Frozen, details := r.details.(stage := Some(Integrity))))
      else Leaves(w, Seal, [], [], r)
  {
    var r := w.record;
    var todo := SealWrites(w.receipt, w.file, r);
    assert Overlay(r.details, NO_DETAILS) == r.details;
    if Sealable(r) && !Exists(w.file) {
      FreshlySealed(w);
    } else if Sealable(r) && Retries(w) {
      AppendAfter(w.file.events, r, ReadyEvent, [Resolve(Executing, NO_DETAILS)]);
      assert todo == [Append(ReadyEvent)] + [Resolve(Executing, NO_DETAILS)];
      SingleAfter(w.file.events + [ReadyEvent], r, [Resolve(Executing, NO_DETAILS)]);
      OperatorLeaves(w, Seal, todo, [ReadyEvent]);
    } else {
      SingleAfter(w.file.events, r, todo);
      OperatorLeaves(w, Seal, todo, []);
    }
  }

  lemma FreshlySealed(w: World)
    requires w.holder.None? && Sealable(w.record) && !Exists(w.file)
    ensures Leaves(w, Seal, [ArmedEvent(w.record.authority, w.record.authority.category), ReadyEvent], [], w.record.(status := Executing))
  {
    var r := w.record;
    var sealed := [ArmedEvent(r.authority, r.authority.category), ReadyEvent];
    var opening := [Append(sealed[0]), Append(sealed[1])];
    var last := [Resolve(Executing, NO_DETAILS)];
    assert Overlay(r.details, NO_DETAILS) == r.details;
    SealedAfter(w, r.authority);
    AfterConcat(w.file.events, r, opening, last);
    LaunchedConcat(opening, last);
    SingleAfter(sealed, r, last);
    assert opening + last == SealWrites(w.receipt, w.file, r);
    OperatorLeaves(w, Seal, opening + last, sealed);
  }

  /** A delivered action with a continuation is taken up once: the record says so before anything is dispatched. */
  lemma ResumptionLeaves(w: World)
    requires w.holder.None?
    ensures var w' := Complete(Do(w, Resume));
      var taken := w.record.status == ResumePending && w.record.authority.continuation == Valid;
      && w' == w.(record := if taken then w.record.(status := Resuming) else w.record,
                  continuing := if taken then w.continuing + 1 else w.continuing)
  {
    var todo := ResumeWrites(w.record);
    assert Overlay(w.record.details, NO_DETAILS) == w.record.details;
    SingleAfter(w.file.events, w.record, todo);
    HolderIsPassive(w, todo, Do(w, Resume).holder);
    Performed(w, todo);
    assert w.helpers + [] == w.helpers;
  }

  // -- rechecking a mail whose outcome is unknown -----------------------------------------------------------

  /** The mail's outcome is unknown and may still be asked for. */
  predicate Askable(w: World) {
    && w.holder.None? && w.record.status == Unconfirmed && w.record.authority.category == "mail_send"
    && InPhase(w.receipt, w.file, OutcomeUnknown) && w.file.events[0].category == "mail_send"
    && w.file.events[0].authority == w.record.authority
    && w.record.details.recheckState != Some("needs_review") && w.record.details.recheckable != Some(false)
  }

  /** What the mailbox says now: only that it was submitted is journalled, as a success; everything else is noted on the
      record, which stays unconfirmed. */
  lemma RecheckAsksAgain(w: World, a: Answers)
    requires Askable(w)
    ensures var now := Complete(Do(w, Recheck(a))).record;
      match a.reconciled
      case Unverifiable => Leaves(w, Recheck(a), [], [], now) && Noted(w.record, now, "needs_review", false, a.checkedAt)
      case Unreachable => Leaves(w, Recheck(a), [], [], now) && Noted(w.record, now, "unknown", true, a.checkedAt)
      case Observed(text) =>
        var state := w.receipt(text);
        if state == "submitted" then
          Leaves(w, Recheck(a), [SucceededEvent(Cut(text))], [], now)
          && (w.receipt(Cut(text)) == "submitted" ==>
                && now.status == (if w.record.authority.continuation == Absent then Approved else ResumePending)
                && now.details.actionReceipt == Some(Cut(text)) && now.details.recheckState == Some("submitted")
                && now.details.recheckable == Some(false) && now.details.recheckedAt == Some(a.checkedAt))
          && (w.receipt(Cut(text)) != "submitted" ==> now == w.record)
        else Leaves(w, Recheck(a), [], [], now) && Noted(w.record, now, state, state != "needs_review", a.checkedAt)
  {
    var todo := RecheckWrites(w.receipt, w.file, w.record, a);
    assert RecheckAsks(w.receipt, w.file, w.record) && todo == AskWrites(w.receipt, w.file.events, w.record, a);
    if a.reconciled.Observed? && w.receipt(a.reconciled.receipt) == "submitted" {
      ConfirmationLeaves(w, a);
    } else {
      SingleAfter(w.file.events, w.record, todo);
      OperatorLeaves(w, Recheck(a), todo, []);
    }
  }

  predicate Noted(was: Record, now: Record, state: string, again: bool, at: string) {
    now == was.(details := was.details.(recheckState := Some(state), recheckable := Some(again), recheckedAt := Some(at)))
  }

  lemma ConfirmationLeaves(w: World, a: Answers)
    requires Askable(w) && a.reconciled.Observed? && w.receipt(a.reconciled.receipt) == "submitted"
    ensures var (text, now) := (a.reconciled.receipt, Complete(Do(w, Recheck(a))).record);
      && Leaves(w, Recheck(a), [SucceededEvent(Cut(text))], [], now)
      && (w.receipt(Cut(text)) == "submitted" ==>
            && now.status == (if w.record.authority.continuation == Absent then Approved else ResumePending)
            && now.details.actionReceipt == Some(Cut(text)) && now.details.recheckState == Some("submitted")
            && now.details.recheckable == Some(false) && now.details.recheckedAt == Some(a.checkedAt))
      && (w.receipt(Cut(text)) != "submitted" ==> now == w.record)
  {
    var e := SucceededEvent(Cut(a.reconciled.receipt));
    var todo := RecheckWrites(w.receipt, w.file, w.record, a);
    assert todo == ConfirmWrites(w.receipt, w.file.events, a.reconciled.receipt, w.record, a);
    ConfirmAfter(w.receipt, w.file.events, a.reconciled.receipt, w.record, a);
    OperatorLeaves(w, Recheck(a), todo, [e]);
  }

  lemma ConfirmAfter(receipt: string -> string, log: seq<Event>, text: string, r: Record, a: Answers)
    requires PhaseOf(receipt, log) == Ok(OutcomeUnknown) && log[0].category == MAIL
    ensures var (todo, stored) := (ConfirmWrites(receipt, log, text, r, a), Cut(text));
      && LogAfter(log, todo) == log + [SucceededEvent(stored)] && Launched(todo) == []
      && RecordAfter(r, todo) ==
         if receipt(stored) == SUBMITTED then
           r.(status := if r.authority.continuation == Absent then Approved else ResumePending,
              details := r.details.(actionReceipt := Some(stored), recheckState := Some(SUBMITTED), recheckable := Some(false),
                                    recheckedAt := Some(a.checkedAt)))
         else r
  {
    var e := SucceededEvent(Cut(text));
    AppendedReplay(receipt, log, e);
    if receipt(e.result) == SUBMITTED {
      ConfirmedAfter(receipt, log, e, r, a);
    } else {
      AppendAfter(log, r, e, []);
      assert [Append(e)] + [] + [] == ConfirmWrites(receipt, log, text, r, a);
      assert [Append(e)] + [] == [Append(e)];
    }
  }

  lemma ConfirmedAfter(receipt: string -> string, log: seq<Event>, e: Event, r: Record, a: Answers)
    requires e.SucceededEvent? && receipt(e.result) == SUBMITTED
    requires PhaseOf(receipt, log + [e]) == Ok(Succeeded) && (log + [e])[0].category == MAIL
    ensures var status := if r.authority.continuation == Absent then Approved else ResumePending;
      var project := [Resolve(status, NO_DETAILS.(actionReceipt := Some(e.result)))];
      var todo := Conclude(receipt, log, e, r, a.durable) + [Restamp(ConfirmedStamp(a.checkedAt))];
      && Conclude(receipt, log, e, r, a.durable) == [Append(e)] + project
      && LogAfter(log, todo) == log + [e] && Launched(todo) == []
      && RecordAfter(r, todo) ==
           r.(status := status,
              details := r.details.(actionReceipt := Some(e.result), recheckState := Some(SUBMITTED), recheckable := Some(false),
                                    recheckedAt := Some(a.checkedAt)))
  {
    var status := if r.authority.continuation == Absent then Approved else ResumePending;
    var x, y := Resolve(status, NO_DETAILS.(actionReceipt := Some(e.result))), Restamp(ConfirmedStamp(a.checkedAt));
    assert MAIL != "office_job" && MAIL != "office_create";
    assert [Append(e)] + [x] + [y] == [Append(e)] + [x, y];
    AppendAfter(log, r, e, [x, y]);
    SingleAfter(log + [e], Written(r, x), [y]);
    assert [x, y][1..] == [y];
  }

  /** Asking again is refused where there is nothing to ask; a delivered mail is only stamped, and a doubtful one frozen. */
  lemma RecheckElsewhere(w: World, a: Answers)
    requires w.holder.None? && !Askable(w)
    ensures Complete(Do(w, Recheck(a))).file == w.file && Complete(Do(w, Recheck(a))).helpers == w.helpers
    ensures w.record.authority.category != "mail_send" || w.record.status !in {Unconfirmed, Approved, ResumePending} ==>
      Leaves(w, Recheck(a), [], [], w.record)
    ensures w.record.authority.category == "mail_send" && w.record.status in {Unconfirmed, Approved, ResumePending}
            && (Load(w.receipt, w.file).Err? || w.file.events[0].category != "mail_send" || w.file.events[0].authority != w.record.authority) ==>
      Leaves(w, Recheck(a), [], [], w.record.(status := Frozen, details := w.record.details.(stage := Some(Integrity))))
  {
    var todo := RecheckWrites(w.receipt, w.file, w.record, a);
    RecheckTouchesRecordOnly(w, a);
    NoAppendsKeepLog(w.file.events, todo);
    assert w.file.events + [] == w.file.events && w.helpers + [] == w.helpers;
    if |todo| <= 1 {
      SingleAfter(w.file.events, w.record, todo);
    }
    OperatorLeaves(w, Recheck(a), todo, []);
  }

  lemma RecheckTouchesRecordOnly(w: World, a: Answers)
    requires w.holder.None? && !Askable(w)
    ensures NoAppends(RecheckWrites(w.receipt, w.file, w.record, a)) && Launched(RecheckWrites(w.receipt, w.file, w.record, a)) == []
  {
    var todo := RecheckWrites(w.receipt, w.file, w.record, a);
    if Load(w.receipt, w.file).Ok? {
      ProjectNoAppends(w.receipt, Load(w.receipt, w.file).value, w.record, a.durable);
    }
    if |todo| <= 1 {
      SingleAfter(w.file.events, w.record, todo);
    } else {
      assert todo == [todo[0], todo[1]] && todo[0].Resolve? && todo[1].RestampDelivered?;
      assert todo[1..] == [todo[1]] && [todo[1]][1..] == [];
      assert Launched(todo[1..]) == [];
    }
  }

  /** A mail record and its own readable mail journal. */
  predicate OwnMail(w: World) {
    && w.holder.None? && w.record.authority.category == "mail_send" && w.record.status in {Unconfirmed, Approved, ResumePending}
    && Load(w.receipt, w.file).Ok? && w.file.events[0].category == "mail_send" && w.file.events[0].authority == w.record.authority
  }

  predicate IsSubmitted(w: World) {
    var s := Load(w.receipt, w.file);
    s.Ok? && s.value.phase == Succeeded && s.value.result.Some? && w.receipt(s.value.result.value) == "submitted"
  }

  /** A mail the record already calls delivered keeps the time of its first confirmation. */
  lemma DeliveredIsStamped(w: World, a: Answers)
    requires OwnMail(w) && IsSubmitted(w) && w.record.status != Unconfirmed
    ensures var at := w.record.details.recheckedAt;
      Leaves(w, Recheck(a), [], [],
             w.record.(details := w.record.details.(recheckState := Some("submitted"), recheckable := Some(false),
                                                    recheckedAt := if at.Some? && at.value != "" then at else Some(a.checkedAt))))
  {
    var todo := RecheckWrites(w.receipt, w.file, w.record, a);
    SingleAfter(w.file.events, w.record, todo);
    OperatorLeaves(w, Recheck(a), todo, []);
  }

  /** Where there is nothing left to ask, a recheck changes nothing. */
  lemma NothingToAsk(w: World, a: Answers)
    requires OwnMail(w) && !IsSubmitted(w) && !Askable(w)
    ensures Leaves(w, Recheck(a), [], [], w.record)
  {
    var todo := RecheckWrites(w.receipt, w.file, w.record, a);
    SingleAfter(w.file.events, w.record, todo);
    OperatorLeaves(w, Recheck(a), todo, []);
  }

  // -- a failure journalled for somebody else's attempt ---------------------------------------------------

  /** If a helper that a recovery did not see then fails, its failure is journalled for the other's attempt, which has not ended. */
  lemma BlindOutcomeIsAnothers(w: World, t: nat, error: string)
    requires ActsUnseen(w, t) && |w.helpers| !in w.ended
    ensures exists w' :: Reaches(w, w') && FailsAnother(w', |w.helpers|, Cut(error))
  {
    var w2 := BlindlyPrepared(w, t);
    var run :| Possible(w, run) && After(w, run) == w2;
    RunKeeps(w, run);
    StaleFails(w2, t, error);
    var w3 := Complete(Do(Do(w2, EndAction(t, OtherFailure(error))), RecordOutcome(t, NoReceipt)));
    ReachTrans(w, w2, w3);
    assert w3.file.events[..|w3.file.events| - 1] == w2.file.events;
    assert FailsAnother(w3, |w.helpers|, Cut(error));
  }

  /** An Office helper acts on an attempt of its own, and nobody holds the lock. */
  ghost predicate ActsUnseen(w: World, t: nat) {
    && Invariant(w) && w.holder.None? && !w.file.torn && w.record.status != Frozen
    && t < |w.helpers| && w.helpers[t].pc.Acting? && Owns(w.file.events, t)
    && IsOffice(w.file.events[0].category) && PhaseOf(w.receipt, w.file.events).Ok?
    && w.file.events[0].authority == w.record.authority
  }

  /** The log ends in a failure of an attempt whose helper has not ended. */
  predicate FailsAnother(w: World, n: nat, error: string) {
    var log := w.file.events;
    |log| >= 2 && log[|log| - 1] == FailedEvent(error) && Owns(log[..|log| - 1], n) && n !in w.ended
  }

  lemma BlindlyPrepared(w: World, t: nat) returns (w': World)
    requires ActsUnseen(w, t)
    ensures Reaches(w, w') && w'.holder.None? && t < |w'.helpers| && w'.helpers[t] == w.helpers[t] && w'.ended == w.ended
    ensures InPhase(w'.receipt, w'.file, AttemptCommitted) && Owns(w'.file.events, |w.helpers|)
    ensures w'.file.events[0].ArmedEvent? && IsOffice(w'.file.events[0].category)
    ensures w'.helpers[t].pc.seen.category == w'.file.events[0].category
    ensures t != |w.helpers|
  {
    var opening := [Append(ReadyEvent)];
    var ready := Perform(w, opening[0]);
    assert PerformAll(w, opening) == PerformAll(ready, opening[1..]);
    AppendedReplay(w.receipt, w.file.events, ReadyEvent);
    assert MAIL[0] != "office_"[0];
    RecoverLaunches(w, opening, NOBODY, ready);
    RecoveredPrepares(w, ready, NOBODY.spawned);
    PreparedIsOpen(ready, NOBODY.spawned);
    assert HelperGood(w, t);
    w' := PreparedWorld(LaunchedWorld(ready, NOBODY.spawned), |w.helpers|);
  }

  lemma PreparedIsOpen(ready: World, identity: Identity)
    requires !ready.file.torn && PhaseOf(ready.receipt, ready.file.events) == Ok(Ready)
    ensures var (n, w1) := (|ready.helpers|, LaunchedWorld(ready, identity));
      && Load(w1.receipt, w1.file).Ok?
      && var w2 := PreparedWorld(w1, n);
      InPhase(w2.receipt, w2.file, AttemptCommitted) && Owns(w2.file.events, n) && w2.file.events[0] == ready.file.events[0]
  {
    var (n, w1) := (|ready.helpers|, LaunchedWorld(ready, identity));
    var me := Owner(Secret(n), identity);
    AppendedReplay(ready.receipt, ready.file.events, StartedEvent(me));
    AppendedReplay(ready.receipt, w1.file.events, StartedEvent(me));
    AppendedReplay(ready.receipt, w1.file.events + [StartedEvent(me)], CommittedEvent(me));
  }

  /** The stale helper's failure is recorded like any other. */
  lemma StaleFails(w: World, t: nat, error: string)
    requires Invariant(w) && w.holder.None? && t < |w.helpers| && w.helpers[t].pc.Acting? && InPhase(w.receipt, w.file, AttemptCommitted)
    requires w.file.events[0].ArmedEvent? && IsOffice(w.file.events[0].category)
    ensures var w1 := Do(w, EndAction(t, OtherFailure(error)));
      && Enabled(w1, RecordOutcome(t, NoReceipt))
      && var w2 := Complete(Do(w1, RecordOutcome(t, NoReceipt)));
      w2.file.events == w.file.events + [FailedEvent(Cut(error))] && w2.ended == w.ended[t := OtherFailure(error)] && Reaches(w, w2)
  {
    var w1 := Do(w, EndAction(t, OtherFailure(error)));
    StepKeeps(w, EndAction(t, OtherFailure(error)));
    FailureIsRecorded(w1, t, NoReceipt);
    ReachStep(w, EndAction(t, OtherFailure(error)));
    ReachRegion(w1, RecordOutcome(t, NoReceipt));
    ReachTrans(w, w1, Complete(Do(w1, RecordOutcome(t, NoReceipt))));
  }
}

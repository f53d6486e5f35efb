/** Every region plan is legal: each pending write keeps the journal acceptable and the record honest. */
module ApprovalLegality {
  import opened Outcomes
  import opened ExecutionState
  import opened ExecutionLedger
  import opened ExecutionJournal
  import opened ApprovalPlans
  import opened ApprovalProtocol

  // -- what a region may still write -------------------------------------------

  /** The journal side of a world: all that a pending write is judged by. */
  datatype View = View(receipt: string -> string, log: seq<Event>, torn: bool, helpers: seq<Identity>, observed: set<string>)

  function ViewOf(w: World): View {
    View(w.receipt, w.file.events, w.file.torn, seq(|w.helpers|, i requires 0 <= i < |w.helpers| => w.helpers[i].identity),
         w.observed)
  }

  predicate Delivered(status: Status) {
    status == Approved || status == ResumePending || status == Resuming
  }

  ghost predicate HasSuccess(log: seq<Event>) {
    exists i :: 0 <= i < |log| && log[i].SucceededEvent?
  }

  /** A stored result that is the cut of a receipt somebody obtained and that said submitted. */
  ghost predicate Backed(receipt: string -> string, observed: set<string>, result: string) {
    exists text :: text in observed && receipt(text) == SUBMITTED && result == Cut(text)
  }

  predicate OwnerKnown(e: Event, helpers: seq<Identity>) {
    OwnerOf(e).Some? && OwnerOf(e).value.token.Secret? ==>
      OwnerOf(e).value.token.id < |helpers| && OwnerOf(e).value.identity == helpers[OwnerOf(e).value.token.id]
  }

  /** An attempt is committed in a helper's name by that helper alone. */
  predicate CommitsForSelf(who: Who, e: Event) {
    e.CommittedEvent? ==> e.owner.token == if who.Process? then Secret(who.token) else Local
  }

  ghost predicate LegalWrite(v: View, who: Who, x: Write) {
    match x
    case Append(e) =>
      && !v.torn
      && Structural(v.log + [e])
      && OwnerKnown(e, v.helpers)
      && CommitsForSelf(who, e)
      && (e.SucceededEvent? && (v.log + [e])[0].category == MAIL ==> Backed(v.receipt, v.observed, e.result))
    case Resolve(status, _) => Delivered(status) ==> HasSuccess(v.log)
    case _ => true
  }

  function ViewStep(v: View, x: Write): View {
    match x
    case Append(e) => v.(log := v.log + [e])
    case Spawn(identity) => v.(helpers := v.helpers + [identity])
    case _ => v
  }

  ghost predicate Legal(v: View, who: Who, todo: seq<Write>)
    decreases |todo|
  {
    todo == [] || (LegalWrite(v, who, todo[0]) && Legal(ViewStep(v, todo[0]), who, todo[1..]))
  }

  function ViewAfter(v: View, todo: seq<Write>): View
    decreases |todo|
  {
    if todo == [] then v else ViewAfter(ViewStep(v, todo[0]), todo[1..])
  }

  lemma {:induction false} LegalConcat(v: View, who: Who, a: seq<Write>, b: seq<Write>)
    requires Legal(v, who, a) && Legal(ViewAfter(v, a), who, b)
    ensures Legal(v, who, a + b)
    ensures ViewAfter(v, a + b) == ViewAfter(ViewAfter(v, a), b)
    decreases |a|
  {
    if a == [] {
      assert a + b == b;
    } else {
      LegalConcat(ViewStep(v, a[0]), who, a[1..], b);
      assert (a + b)[1..] == a[1..] + b;
    }
  }

  lemma LegalOne(v: View, who: Who, x: Write)
    requires LegalWrite(v, who, x)
    ensures Legal(v, who, [x]) && ViewAfter(v, [x]) == ViewStep(v, x)
  {
    assert [x][1..] == [];
  }

  lemma LegalTwo(v: View, who: Who, x: Write, y: Write)
    requires LegalWrite(v, who, x) && LegalWrite(ViewStep(v, x), who, y)
    ensures Legal(v, who, [x, y]) && ViewAfter(v, [x, y]) == ViewStep(ViewStep(v, x), y)
  {
    assert [x, y][1..] == [y];
    LegalOne(ViewStep(v, x), who, y);
  }

  /** The journal side of the invariant. */
  ghost predicate GoodView(v: View) {
    && (v.log == [] || Structural(v.log))
    && (forall i :: 0 <= i < |v.log| ==> OwnerKnown(v.log[i], v.helpers))
    && (v.log != [] && v.log[0].ArmedEvent? && v.log[0].category == MAIL ==>
          forall i :: 0 <= i < |v.log| && v.log[i].SucceededEvent? ==> Backed(v.receipt, v.observed, v.log[i].result))
  }

  lemma LegalWriteKeepsGood(v: View, who: Who, x: Write)
    requires GoodView(v) && LegalWrite(v, who, x)
    ensures GoodView(ViewStep(v, x))
  {
  }

  /** The log replays to the same phase whether or not receipts are believed. */
  lemma PhaseIsStructural(v: View)
    requires PhaseOf(v.receipt, v.log).Ok?
    ensures Structural(v.log) && PhaseOf(Trusting(), v.log) == PhaseOf(v.receipt, v.log)
  {
    AcceptedIsStructural(v.receipt, v.log);
  }

  lemma LegalAppend(v: View, who: Who, e: Event)
    requires Structural(v.log) && !v.torn && OwnerKnown(e, v.helpers) && CommitsForSelf(who, e)
    requires KindOf(e).Some? && TransitionValid(Trusting(), v.log[0].category, PhaseOf(Trusting(), v.log).value, e)
    requires e.SucceededEvent? && v.log[0].category == MAIL ==> Backed(v.receipt, v.observed, e.result)
    ensures LegalWrite(v, who, Append(e))
    ensures PhaseOf(Trusting(), v.log + [e]) == Ok(KindOf(e).value)
  {
    AppendedReplay(Trusting(), v.log, e);
  }

  // -- every plan is legal -----------------------------------------------------

  lemma ProjectLegal(v: View, who: Who, s: Snapshot, seen: Record, durable: Durable)
    requires Replay(v.receipt, v.log) == Ok(s)
    ensures Legal(v, who, ProjectWrites(v.receipt, s, seen, durable))
    ensures ViewAfter(v, ProjectWrites(v.receipt, s, seen, durable)) == v
  {
    var p := ProjectWrites(v.receipt, s, seen, durable);
    if p != [] {
      assert p == [p[0]];
      if s.phase == Succeeded {
        assert v.log[|v.log| - 1].SucceededEvent?;
      }
      LegalOne(v, who, p[0]);
    }
  }

  lemma ConcludeLegal(v: View, who: Who, e: Event, seen: Record, durable: Durable)
    requires LegalWrite(v, who, Append(e))
    ensures Legal(v, who, Conclude(v.receipt, v.log, e, seen, durable))
    ensures ViewAfter(v, Conclude(v.receipt, v.log, e, seen, durable)) == v.(log := v.log + [e])
  {
    var v' := v.(log := v.log + [e]);
    LegalOne(v, who, Append(e));
    match Replay(v.receipt, v'.log)
    case Ok(s) =>
      ProjectLegal(v', who, s, seen, durable);
      LegalConcat(v, who, [Append(e)], ProjectWrites(v.receipt, s, seen, durable));
    case Err(_) =>
      assert Conclude(v.receipt, v.log, e, seen, durable) == [Append(e)];
  }

  lemma LaunchLegal(v: View, who: Who, identity: Identity)
    requires Structural(v.log) && !v.torn
    requires PhaseOf(Trusting(), v.log).value == Ready || PhaseOf(Trusting(), v.log).value == HelperStarted
    ensures Legal(v, who, LaunchWrites(|v.helpers|, identity))
  {
    var e := StartedEvent(Owner(Secret(|v.helpers|), identity));
    LegalAppend(ViewStep(v, Spawn(identity)), who, e);
    LegalTwo(v, who, Spawn(identity), Append(e));
  }

  lemma ReadyThenLaunchLegal(v: View, who: Who, between: seq<Write>, identity: Identity)
    requires LegalWrite(v, who, Append(ReadyEvent)) && !v.torn
    requires between == [] || between == [Resolve(Executing, NO_DETAILS)]
    ensures Legal(v, who, [Append(ReadyEvent)] + between + LaunchWrites(|v.helpers|, identity))
  {
    var v' := ViewStep(v, Append(ReadyEvent));
    LegalOne(v, who, Append(ReadyEvent));
    if between == [] {
      assert [Append(ReadyEvent)] + between == [Append(ReadyEvent)];
    } else {
      LegalOne(v', who, between[0]);
      LegalConcat(v, who, [Append(ReadyEvent)], between);
    }
    LaunchLegal(v', who, identity);
    LegalConcat(v, who, [Append(ReadyEvent)] + between, LaunchWrites(|v.helpers|, identity));
  }

  /** The event an outcome is recorded with is always a legal next event of an open attempt. */
  lemma OutcomeAppendLegal(v: View, who: Who, e: Event)
    requires Structural(v.log) && !v.torn && PhaseOf(Trusting(), v.log).value == AttemptCommitted
    requires e.SucceededEvent? || e.FailedEvent? || e.RetryableEvent? || e.UnknownEvent?
    requires e.SucceededEvent? && v.log[0].category == MAIL ==> Backed(v.receipt, v.observed, e.result)
    ensures LegalWrite(v, who, Append(e))
  {
    LegalAppend(v, who, e);
  }

  /** If recovery of this journal re-observes a mail, the receipt it gets counts as observed. */
  ghost predicate ObservedIfAsked(v: View, r: Record, a: Answers) {
    var s := Load(v.receipt, File(v.log, v.torn));
    a.reconciled.Observed? && s.Ok? && s.value.authority == r.authority && s.value.phase == AttemptCommitted
    && s.value.category == MAIL && !OwnerAlive(s.value.owner, a.processes)
    ==> a.reconciled.receipt in v.observed
  }

  lemma RecoverArmedLegal(v: View, a: Answers)
    requires PhaseOf(Trusting(), v.log) == Ok(Armed) && !v.torn
    ensures Legal(v, Operator, [Append(ReadyEvent), Resolve(Executing, NO_DETAILS)] + LaunchWrites(|v.helpers|, a.spawned))
  {
    LegalAppend(v, Operator, ReadyEvent);
    ReadyThenLaunchLegal(v, Operator, [Resolve(Executing, NO_DETAILS)], a.spawned);
    assert [Append(ReadyEvent), Resolve(Executing, NO_DETAILS)] == [Append(ReadyEvent)] + [Resolve(Executing, NO_DETAILS)];
  }

  /** An attempt whose owner is gone: mail is reconciled, Office is resumed, anything else is unknown. */
  lemma RecoverAttemptLegal(v: View, category: string, r: Record, a: Answers)
    requires PhaseOf(Trusting(), v.log) == Ok(AttemptCommitted) && !v.torn && category == v.log[0].category
    requires category == MAIL && a.reconciled.Observed? ==> a.reconciled.receipt in v.observed
    ensures category == MAIL ==>
              Legal(v, Operator, Conclude(v.receipt, v.log, ReconcileEvent(v.receipt, a.reconciled), r, a.durable))
    ensures IsOffice(category) ==> Legal(v, Operator, [Append(ReadyEvent)] + LaunchWrites(|v.helpers|, a.spawned))
    ensures Legal(v, Operator, Conclude(v.receipt, v.log, UnknownEvent(None), r, a.durable))
  {
    if category == MAIL {
      OutcomeAppendLegal(v, Operator, ReconcileEvent(v.receipt, a.reconciled));
      ConcludeLegal(v, Operator, ReconcileEvent(v.receipt, a.reconciled), r, a.durable);
    }
    if IsOffice(category) {
      LegalAppend(v, Operator, ReadyEvent);
      ReadyThenLaunchLegal(v, Operator, [], a.spawned);
      assert [Append(ReadyEvent)] + [] == [Append(ReadyEvent)];
    }
    OutcomeAppendLegal(v, Operator, UnknownEvent(None));
    ConcludeLegal(v, Operator, UnknownEvent(None), r, a.durable);
  }

  lemma RecoverLoadedLegal(v: View, r: Record, a: Answers)
    requires GoodView(v) && Exists(File(v.log, v.torn))
    requires ObservedIfAsked(v, r, a)
    ensures Legal(v, Operator, RecoverLoaded(v.receipt, File(v.log, v.torn), r, |v.helpers|, a))
  {
    LegalOne(v, Operator, FreezeWrite());
    match Load(v.receipt, File(v.log, v.torn))
    case Err(_) =>
    case Ok(s) =>
      PhaseIsStructural(v);
      if s.authority == r.authority {
        match s.phase
        case Armed => RecoverArmedLegal(v, a);
        case Ready => LaunchLegal(v, Operator, a.spawned);
        case HelperStarted => LaunchLegal(v, Operator, a.spawned);
        case AttemptCommitted =>
          if !OwnerAlive(s.owner, a.processes) {
            RecoverAttemptLegal(v, s.category, r, a);
          }
        case Succeeded | Failed | RetryableFailure | OutcomeUnknown =>
          ProjectLegal(v, Operator, s, r, a.durable);
      }
  }

  lemma SettleLegal(v: View, category: string, r: Record, a: Answers)
    requires PhaseOf(Trusting(), v.log) == Ok(Ready) && !v.torn && v.log[0].category == category
    requires a.legacy.Some? ==> a.legacy.value in v.observed
    ensures var e := LegacyEvent(v.receipt, category, a);
            var todo := SettleWrites(v.receipt, v.log, e, r, a.durable);
            var v' := v.(log := v.log + [CommittedEvent(LOCAL_OWNER), e]);
            && Legal(v, Operator, todo) && ViewAfter(v, todo) == v'
            && (GoodView(v) ==> GoodView(v'))
  {
    var commit := CommittedEvent(LOCAL_OWNER);
    var e := LegacyEvent(v.receipt, category, a);
    var v1 := v.(log := v.log + [commit]);
    LegalAppend(v, Operator, commit);
    LegalOne(v, Operator, Append(commit));
    OutcomeAppendLegal(v1, Operator, e);
    ConcludeLegal(v1, Operator, e, r, a.durable);
    LegalConcat(v, Operator, [Append(commit)], Conclude(v.receipt, v1.log, e, r, a.durable));
    assert v1.log + [e] == v.log + [commit, e];
    if GoodView(v) {
      LegalWriteKeepsGood(v, Operator, Append(commit));
      LegalWriteKeepsGood(v1, Operator, Append(e));
    }
  }

  lemma MigrateLegal(v: View, r: Record, a: Answers)
    requires v.log == [] && !v.torn
    requires r.status == Executing && r.payloadReadable && a.legacy.Some? ==> a.legacy.value in v.observed
    ensures Legal(v, Operator, MigrateWrites(v.receipt, r, |v.helpers|, a))
  {
    if r.status == Approving {
      LegalOne(v, Operator, Resolve(Pending, NO_DETAILS));
    } else if r.status == Executing && r.payloadReadable {
      MigrateExecutingLegal(v, r, a);
    }
  }

  lemma MigrateExecutingLegal(v: View, r: Record, a: Answers)
    requires v.log == [] && !v.torn && r.status == Executing && r.payloadReadable
    requires a.legacy.Some? ==> a.legacy.value in v.observed
    ensures Legal(v, Operator, MigrateWrites(v.receipt, r, |v.helpers|, a))
  {
    var category := r.authority.category;
    var armed := ArmedEvent(r.authority, category);
    var v1, v2 := v.(log := [armed]), v.(log := [armed, ReadyEvent]);
    assert v.log + [armed] == [armed] && [armed] + [ReadyEvent] == v2.log;
    LegalAppend(v1, Operator, ReadyEvent);
    LegalTwo(v, Operator, Append(armed), Append(ReadyEvent));
    var opening := [Append(armed), Append(ReadyEvent)];
    assert ViewAfter(v, opening) == v2 && GoodView(v2);
    if category == "office_job" {
      RecoverLoadedLegal(v2, r, a);
      LegalConcat(v, Operator, opening, RecoverLoaded(v.receipt, File(v2.log, false), r, |v.helpers|, a));
    } else {
      SettleLegal(v2, category, r, a);
      var e := LegacyEvent(v.receipt, category, a);
      var settle := SettleWrites(v.receipt, v2.log, e, r, a.durable);
      var v3 := v2.(log := v2.log + [CommittedEvent(LOCAL_OWNER), e]);
      RecoverLoadedLegal(v3, r, a);
      var again := RecoverLoaded(v.receipt, File(v3.log, false), r, |v.helpers|, a);
      LegalConcat(v2, Operator, settle, again);
      LegalConcat(v, Operator, opening, settle + again);
    }
  }

  lemma ArmLegal(v: View, authority: Authority)
    requires v.log == [] && !v.torn
    ensures Legal(v, Operator, [Append(ArmedEvent(authority, authority.category)), Append(ReadyEvent), Resolve(Executing, NO_DETAILS)])
  {
    var armed := ArmedEvent(authority, authority.category);
    assert v.log + [armed] == [armed];
    var v1 := ViewStep(v, Append(armed));
    LegalAppend(v1, Operator, ReadyEvent);
    LegalTwo(v1, Operator, Append(ReadyEvent), Resolve(Executing, NO_DETAILS));
    LegalOne(v, Operator, Append(armed));
    var rest := [Append(ReadyEvent), Resolve(Executing, NO_DETAILS)];
    LegalConcat(v, Operator, [Append(armed)], rest);
    assert [Append(armed)] + rest == [Append(armed), Append(ReadyEvent), Resolve(Executing, NO_DETAILS)];
  }

  lemma SealLegal(v: View, r: Record)
    requires GoodView(v)
    ensures Legal(v, Operator, SealWrites(v.receipt, File(v.log, v.torn), r))
  {
    var file := File(v.log, v.torn);
    var p := SealWrites(v.receipt, file, r);
    LegalOne(v, Operator, Resolve(Failure, NO_DETAILS.(stage := Some(Validation))));
    LegalOne(v, Operator, FreezeWrite());
    if !Exists(file) {
      ArmLegal(v, r.authority);
    } else if |p| == 2 {
      PhaseIsStructural(v);
      LegalAppend(v, Operator, ReadyEvent);
      LegalTwo(v, Operator, Append(ReadyEvent), Resolve(Executing, NO_DETAILS));
    }
  }

  lemma ConfirmLegal(v: View, text: string, r: Record, a: Answers)
    requires PhaseOf(Trusting(), v.log) == Ok(OutcomeUnknown) && !v.torn && v.log[0].category == MAIL
    requires text in v.observed && v.receipt(text) == SUBMITTED
    ensures Legal(v, Operator, ConfirmWrites(v.receipt, v.log, text, r, a))
  {
    var e := SucceededEvent(Cut(text));
    var v' := v.(log := v.log + [e]);
    LegalAppend(v, Operator, e);
    ConcludeLegal(v, Operator, e, r, a.durable);
    var last := if Replay(v.receipt, v'.log).Ok? then [Restamp(ConfirmedStamp(a.checkedAt))] else [];
    LegalOne(v', Operator, Restamp(ConfirmedStamp(a.checkedAt)));
    LegalConcat(v, Operator, Conclude(v.receipt, v.log, e, r, a.durable), last);
  }

  lemma StampLegal(v: View, s: Snapshot, r: Record, a: Answers)
    requires Replay(v.receipt, v.log) == Ok(s)
    ensures Legal(v, Operator, StampWrites(v.receipt, s, r, a))
  {
    var p := StampWrites(v.receipt, s, r, a);
    var first := if r.status == Unconfirmed then ProjectWrites(v.receipt, s, r, a.durable) else [];
    var last := [p[|p| - 1]];
    ProjectLegal(v, Operator, s, r, a.durable);
    LegalOne(v, Operator, last[0]);
    LegalConcat(v, Operator, first, last);
  }

  lemma RecheckLegal(v: View, r: Record, a: Answers)
    requires GoodView(v)
    requires RecheckAsks(v.receipt, File(v.log, v.torn), r) && a.reconciled.Observed?
             ==> a.reconciled.receipt in v.observed
    ensures Legal(v, Operator, RecheckWrites(v.receipt, File(v.log, v.torn), r, a))
  {
    var file := File(v.log, v.torn);
    var p := RecheckWrites(v.receipt, file, r, a);
    LegalOne(v, Operator, FreezeWrite());
    var s := Load(v.receipt, file);
    if s.Ok? {
      PhaseIsStructural(v);
      StampLegal(v, s.value, r, a);
      if RecheckAsks(v.receipt, file, r) {
        if a.reconciled.Observed? && v.receipt(a.reconciled.receipt) == SUBMITTED {
          ConfirmLegal(v, a.reconciled.receipt, r, a);
        } else {
          var asked := AskWrites(v.receipt, v.log, r, a);
          assert asked == [asked[0]];
          LegalOne(v, Operator, asked[0]);
        }
      }
    }
  }

  /** Preparing commits in the helper's own name, and only then lets it proceed. */
  lemma PrepareLegal(v: View, r: Record, t: nat, durable: Durable)
    requires GoodView(v) && t < |v.helpers|
    ensures var owner := Owner(Secret(t), v.helpers[t]);
            var (todo, verdict) := PrepareWrites(v.receipt, File(v.log, v.torn), r, owner, durable);
            && Legal(v, Process(t), todo)
            && (verdict == Proceed ==>
                  var log := ViewAfter(v, todo).log;
                  PhaseOf(Trusting(), log) == Ok(AttemptCommitted) && OwnerOf(log[|log| - 1]).value.token == Secret(t))
            && (verdict == Proceed ==> Structural(v.log) && !v.torn && PhaseOf(Trusting(), v.log).value != Armed)
  {
    var owner := Owner(Secret(t), v.helpers[t]);
    var file := File(v.log, v.torn);
    var commit := CommittedEvent(owner);
    match Load(v.receipt, file)
    case Err(_) =>
    case Ok(s) =>
      PhaseIsStructural(v);
      if s.authority != r.authority {
        LegalOne(v, Process(t), FreezeWrite());
      } else if s.phase == Ready {
        LegalAppend(v, Process(t), commit);
        LegalOne(v, Process(t), Append(commit));
      } else if s.phase == HelperStarted {
        if s.owner.value.token == owner.token {
          var v' := ViewStep(v, Append(StartedEvent(owner)));
          LegalAppend(v, Process(t), StartedEvent(owner));
          LegalAppend(v', Process(t), commit);
          LegalTwo(v, Process(t), Append(StartedEvent(owner)), Append(commit));
        }
      } else if s.phase != Armed && s.phase != AttemptCommitted {
        ProjectLegal(v, Process(t), s, r, durable);
      }
  }

  lemma OutcomeWritesLegal(v: View, seen: Record, category: string, t: nat, outcome: ActionOutcome, durable: Durable)
    requires GoodView(v)
    requires v.log != [] && v.log[0].ArmedEvent? ==> category == v.log[0].category
    requires outcome.Returned? ==> outcome.result in v.observed
    ensures Legal(v, Process(t), OutcomeWrites(v.receipt, File(v.log, v.torn), seen, category, outcome, durable))
  {
    var file := File(v.log, v.torn);
    match OutcomeEvent(v.receipt, category, outcome)
    case None =>
    case Some(e) =>
      if InPhase(v.receipt, file, AttemptCommitted) {
        PhaseIsStructural(v);
        OutcomeAppendLegal(v, Process(t), e);
        ConcludeLegal(v, Process(t), e, seen, durable);
      }
      var rest := AttemptWrites(v.receipt, file, e, seen, durable);
      match FollowUp(category, outcome)
      case None =>
      case Some(id) =>
        LegalOne(v, Process(t), OverwriteNote(id));
        LegalConcat(v, Process(t), [OverwriteNote(id)], rest);
  }
}

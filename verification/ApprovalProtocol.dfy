/** The crash-recovery protocol of one approval: operators, helper processes and crashes, one durable write at a time. */
module ApprovalProtocol {
  import opened Outcomes
  import opened ExecutionState
  import opened ExecutionJournal
  import opened ApprovalPlans

  /** What a helper read when it prepared: the record, and the category its journal sealed. */
  datatype Seen = Seen(record: Record, category: string)

  datatype Pc =
    | Waiting
    | Preparing(seen: Seen)
    | Prepared(seen: Seen)
    | Acting(seen: Seen)
    | Finished(seen: Seen, outcome: ActionOutcome)
    | Recording
    | Exited

  /** The helper launched with token `Secret(i)` is the `i`-th one. */
  datatype Helper = Helper(identity: Identity, pc: Pc)

  datatype Who = Operator | Resumer | Process(token: nat)

  /** The holder of the record's file lock, with the writes its region still owes. */
  datatype Holder = Holder(who: Who, todo: seq<Write>, verdict: Verdict)

  datatype World = World(
    receipt: string -> string,
    file: File,
    record: Record,
    holder: Option<Holder>,
    helpers: seq<Helper>,
    continuing: nat,          // continuations dispatched and not yet finished
    started: seq<nat>,        // history: tokens whose action was started
    ended: map<nat, ActionOutcome>,   // history: how each action that ended did
    observed: set<string>)    // history: mail receipts somebody actually obtained

  /** How far the interrupted write got. */
  datatype Fault = Nothing | Whole | Partial

  datatype Step =
    | Claim
    | Restore
    | Reject
    | Seal
    | Recover(a: Answers)
    | Recheck(a: Answers)
    | Resume
    | ResumeEnds(ok: bool)
    | Prepare(t: nat, durable: Durable)
    | StartAction(t: nat)
    | EndAction(t: nat, outcome: ActionOutcome)
    | RecordOutcome(t: nat, durable: Durable)
    | WriteNext
    | Release
    | WriteFails(fault: Fault)
    | OperatorDies(fault: Fault)
    | HelperDies(t: nat, fault: Fault)
    | FreezeLate
    | EditRecord(authority: Authority)

  predicate Init(w: World) {
    && w.file == File([], false)
    && (w.record.status == Pending || w.record.status == Approving || w.record.status == Executing)
    && w.holder.None? && w.helpers == [] && w.continuing == 0 && w.started == [] && w.ended == map[] && w.observed == {}
  }


  predicate FaultFits(todo: seq<Write>, fault: Fault) {
    match fault
    case Nothing => true
    case Whole => todo != []
    case Partial => todo != [] && todo[0].Append?
  }

  predicate Enabled(w: World, s: Step) {
    match s
    case Claim | Restore | Reject | Seal | Recover(_) | Recheck(_) | Resume => w.holder.None?
    case ResumeEnds(_) => w.continuing > 0
    case Prepare(t, _) => w.holder.None? && t < |w.helpers| && w.helpers[t].pc.Waiting?
    case StartAction(t) => t < |w.helpers| && w.helpers[t].pc.Prepared?
    case EndAction(t, _) => t < |w.helpers| && w.helpers[t].pc.Acting?
    case RecordOutcome(t, _) => w.holder.None? && t < |w.helpers| && w.helpers[t].pc.Finished?
    case WriteNext => w.holder.Some? && w.holder.value.todo != []
    case Release => w.holder.Some? && w.holder.value.todo == []
    case WriteFails(fault) => w.holder.Some? && w.holder.value.todo != [] && FaultFits(w.holder.value.todo, fault)
    case OperatorDies(fault) =>
      w.holder.Some? && !w.holder.value.who.Process? && FaultFits(w.holder.value.todo, fault)
    case HelperDies(t, fault) =>
      && t < |w.helpers| && !w.helpers[t].pc.Exited?
      && if Holds(w, t) then FaultFits(w.holder.value.todo, fault) else fault == Nothing
    case FreezeLate | EditRecord(_) => true
  }

  predicate Holds(w: World, t: nat) {
    w.holder.Some? && w.holder.value.who == Process(t)
  }

  function At(w: World, t: nat, pc: Pc): World
    requires t < |w.helpers|
  {
    w.(helpers := w.helpers[t := w.helpers[t].(pc := pc)])
  }

  function Enter(w: World, who: Who, todo: seq<Write>, verdict: Verdict): World {
    w.(holder := Some(Holder(who, todo, verdict)))
  }

  /** One durable write. */
  function Perform(w: World, x: Write): World {
    match x
    case Append(e) => w.(file := Appended(w.file, e))
    case Spawn(identity) => w.(helpers := w.helpers + [Helper(identity, Waiting)])
    case _ => w.(record := Written(w.record, x))
  }

  function Interrupt(w: World, todo: seq<Write>, fault: Fault): World
    requires FaultFits(todo, fault)
  {
    match fault
    case Nothing => w
    case Whole => Perform(w, todo[0])
    case Partial => w.(file := w.file.(torn := true))
  }

  /** A launch that cannot bind its helper kills it. */
  function Kill(w: World, x: Write): World {
    if x.Append? && x.event.StartedEvent? && x.event.owner.token.Secret? && x.event.owner.token.id < |w.helpers|
    then At(w, x.event.owner.token.id, Exited) else w
  }

  /** The mail receipt a recovery obtains, if it gets as far as asking. */
  function RecoverObserves(w: World, a: Answers): set<string> {
    var s := Load(w.receipt, w.file);
    if w.record.status == Frozen then {}
    else if !Exists(w.file) then
      if w.record.status == Executing && w.record.payloadReadable && a.legacy.Some? then {a.legacy.value} else {}
    else if s.Ok? && s.value.authority == w.record.authority && s.value.phase == AttemptCommitted
            && !OwnerAlive(s.value.owner, a.processes) && s.value.category == MAIL && a.reconciled.Observed?
    then {a.reconciled.receipt} else {}
  }

  /** The mail receipt a recheck obtains, if it gets as far as asking. */
  function RecheckObserves(w: World, a: Answers): set<string> {
    if RecheckAsks(w.receipt, w.file, w.record) && a.reconciled.Observed? then {a.reconciled.receipt} else {}
  }

  function Do(w: World, s: Step): World
    requires Enabled(w, s)
  {
    match s
    case Claim => Enter(w, Operator, ClaimWrites(w.record), Quit)
    case Restore => Enter(w, Operator, RestoreWrites(w.record), Quit)
    case Reject => Enter(w, Operator, RejectWrites(w.record), Quit)
    case Seal => Enter(w, Operator, SealWrites(w.receipt, w.file, w.record), Quit)
    case Recover(a) =>
      Enter(w.(observed := w.observed + RecoverObserves(w, a)), Operator,
            RecoverWrites(w.receipt, w.file, w.record, |w.helpers|, a), Quit)
    case Recheck(a) =>
      Enter(w.(observed := w.observed + RecheckObserves(w, a)), Operator,
            RecheckWrites(w.receipt, w.file, w.record, a), Quit)
    case Resume =>
      var todo := ResumeWrites(w.record);
      Enter(w, Resumer, todo, if todo == [] then Quit else Proceed)
    case ResumeEnds(ok) =>
      w.(continuing := w.continuing - 1,
         record := Written(w.record, if ok then Resolve(Approved, NO_DETAILS)
                                     else Resolve(Failure, NO_DETAILS.(stage := Some(ContinuationStage)))))
    case Prepare(t, durable) =>
      var owner := Owner(Secret(t), w.helpers[t].identity);
      var (todo, verdict) := PrepareWrites(w.receipt, w.file, w.record, owner, durable);
      var loaded := Load(w.receipt, w.file);
      var category := if loaded.Ok? then loaded.value.category else "";
      Enter(At(w, t, Preparing(Seen(w.record, category))), Process(t), todo, verdict)
    case StartAction(t) => At(w.(started := w.started + [t]), t, Acting(w.helpers[t].pc.seen))
    case EndAction(t, outcome) =>
      At(w.(ended := w.ended[t := outcome], observed := w.observed + if outcome.Returned? then {outcome.result} else {}),
         t, Finished(w.helpers[t].pc.seen, outcome))
    case RecordOutcome(t, durable) =>
      var pc := w.helpers[t].pc;
      Enter(At(w, t, Recording), Process(t),
            OutcomeWrites(w.receipt, w.file, pc.seen.record, pc.seen.category, pc.outcome, durable), Quit)
    case WriteNext =>
      var h := w.holder.value;
      Perform(w, h.todo[0]).(holder := Some(h.(todo := h.todo[1..])))
    case Release =>
      var h := w.holder.value;
      var free := w.(holder := None);
      (match h.who
       case Operator => free
       case Resumer => if h.verdict == Proceed then free.(continuing := w.continuing + 1) else free
       case Process(t) =>
         if t < |w.helpers| then
           At(free, t, if w.helpers[t].pc.Preparing? && h.verdict == Proceed
                       then Prepared(w.helpers[t].pc.seen) else Exited)
         else free)
    case WriteFails(fault) =>
      var h := w.holder.value;
      var hit := Interrupt(w, h.todo, fault).(holder := None);
      if h.who.Process? && h.who.token < |w.helpers| then At(hit, h.who.token, Exited) else Kill(hit, h.todo[0])
    case OperatorDies(fault) => Interrupt(w, w.holder.value.todo, fault).(holder := None)
    case HelperDies(t, fault) =>
      if Holds(w, t) then At(Interrupt(w, w.holder.value.todo, fault).(holder := None), t, Exited)
      else At(w, t, Exited)
    case FreezeLate => w.(record := Written(w.record, FreezeWrite()))
    case EditRecord(authority) => w.(record := w.record.(authority := authority))
  }

  /** A whole run: every step enabled when it is taken. */
  predicate Possible(w: World, run: seq<Step>)
    decreases |run|
  {
    run == [] || (Enabled(w, run[0]) && Possible(Do(w, run[0]), run[1..]))
  }

  function After(w: World, run: seq<Step>): World
    requires Possible(w, run)
    decreases |run|
  {
    if run == [] then w else After(Do(w, run[0]), run[1..])
  }
}

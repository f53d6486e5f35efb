/** With exact observation of live owners, at most one helper is ever inside an attempt. */
module ApprovalExclusion {
  import opened Outcomes
  import opened ExecutionState
  import opened ExecutionLedger
  import opened ExecutionJournal
  import opened ApprovalPlans
  import opened ApprovalProtocol
  import opened ApprovalLegality
  import opened ApprovalInvariant

  predicate NoAppends(todo: seq<Write>) {
    forall i :: 0 <= i < |todo| ==> !todo[i].Append?
  }

  /** At most one append is still owed. */
  predicate OneAppend(todo: seq<Write>) {
    forall i, j :: 0 <= i < j < |todo| ==> !(todo[i].Append? && todo[j].Append?)
  }

  /** Helper `t` is live, has committed its attempt, and has not yet recorded an outcome. */
  predicate InAttempt(w: World, t: nat)
    requires t < |w.helpers|
  {
    match w.helpers[t].pc
    case Prepared(_) => true
    case Acting(_) => true
    case Finished(_, _) => true
    case Preparing(_) => Holds(w, t) && w.holder.value.verdict == Proceed && NoAppends(w.holder.value.todo)
    case Recording => Holds(w, t) && !NoAppends(w.holder.value.todo)
    case _ => false
  }

  /** The open attempt of the log is `t`'s. */
  predicate Owns(log: seq<Event>, t: nat) {
    log != [] && log[|log| - 1].CommittedEvent? && log[|log| - 1].owner.token == Secret(t)
  }

  ghost predicate Exclusive(w: World) {
    && Invariant(w)
    && (forall t :: 0 <= t < |w.helpers| && InAttempt(w, t) ==> Owns(w.file.events, t))
    && (w.holder.Some? ==>
          var h := w.holder.value;
          && (forall t :: 0 <= t < |w.helpers| && InAttempt(w, t) && h.who != Process(t) ==> NoAppends(h.todo))
          && (h.who.Process? && w.helpers[h.who.token].pc.Preparing? && h.verdict == Proceed ==>
                Owns(ViewAfter(ViewOf(w), h.todo).log, h.who.token))
          && (h.who.Process? && w.helpers[h.who.token].pc.Recording? ==> OneAppend(h.todo)))
  }

  /** A recovery that sees the processes as they are: a helper's process is there exactly while it lives. */
  ghost predicate Exact(w: World, s: Step) {
    s.Recover? ==>
      forall t :: 0 <= t < |w.helpers| ==>
        (OwnerAlive(Some(Owner(Secret(t), w.helpers[t].identity)), s.a.processes) <==> !w.helpers[t].pc.Exited?)
  }

  ghost predicate ExactRun(w: World, run: seq<Step>)
    requires Possible(w, run)
    decreases |run|
  {
    run == [] || (Exact(w, run[0]) && ExactRun(Do(w, run[0]), run[1..]))
  }

  lemma {:induction false} NoAppendsSameLog(v: View, todo: seq<Write>)
    requires NoAppends(todo)
    ensures ViewAfter(v, todo).log == v.log
    decreases |todo|
  {
    if todo != [] {
      NoAppendsSameLog(ViewStep(v, todo[0]), todo[1..]);
    }
  }

  // -- a region that starts while an attempt is open writes nothing to the journal --------

  lemma OpenAttemptReads(w: World, t: nat)
    requires Invariant(w) && t < |w.helpers| && Owns(w.file.events, t)
    ensures Exists(w.file)
    ensures var s := Load(w.receipt, w.file);
            s.Ok? ==> && s.value.phase == AttemptCommitted
                      && s.value.owner == Some(Owner(Secret(t), w.helpers[t].identity))
  {
    var log := w.file.events;
    assert OwnerKnown(log[|log| - 1], ViewOf(w).helpers);
  }

  lemma OperatorLeavesAttempt(w: World, s: Step, t: nat)
    requires Invariant(w) && Enabled(w, s) && Exact(w, s)
    requires s.Claim? || s.Restore? || s.Reject? || s.Seal? || s.Recover? || s.Recheck? || s.Resume?
    requires t < |w.helpers| && Owns(w.file.events, t) && !w.helpers[t].pc.Exited?
    ensures NoAppends(Do(w, s).holder.value.todo)
  {
    OpenAttemptReads(w, t);
  }

  lemma ProjectNoAppends(receipt: string -> string, s: Snapshot, seen: Record, durable: Durable)
    ensures NoAppends(ProjectWrites(receipt, s, seen, durable))
  {
  }

  lemma ConcludeAppendsFirst(receipt: string -> string, log: seq<Event>, e: Event, seen: Record, durable: Durable)
    ensures var p := Conclude(receipt, log, e, seen, durable);
            p != [] && forall i :: 0 < i < |p| ==> !p[i].Append?
  {
    var p := Conclude(receipt, log, e, seen, durable);
    var s := Replay(receipt, log + [e]);
    if s.Ok? {
      ProjectNoAppends(receipt, s.value, seen, durable);
      assert forall i :: 0 < i < |p| ==> p[i] == ProjectWrites(receipt, s.value, seen, durable)[i - 1];
    }
  }

  lemma PrefixedAppendsOnce(prefix: seq<Write>, p: seq<Write>)
    requires NoAppends(prefix) && forall i :: 0 < i < |p| ==> !p[i].Append?
    ensures OneAppend(prefix + p)
  {
  }

  lemma OutcomeAppendsOnce(receipt: string -> string, file: File, seen: Record, category: string,
                           outcome: ActionOutcome, durable: Durable)
    ensures OneAppend(OutcomeWrites(receipt, file, seen, category, outcome, durable))
  {
    match OutcomeEvent(receipt, category, outcome)
    case None =>
    case Some(e) =>
      var rest := AttemptWrites(receipt, file, e, seen, durable);
      ConcludeAppendsFirst(receipt, file.events, e, seen, durable);
      match FollowUp(category, outcome)
      case None =>
      case Some(id) => PrefixedAppendsOnce([OverwriteNote(id)], rest);
  }

  // -- every exact step keeps it -------------------------------------------------------------

  lemma EnterExclusive(w: World, s: Step)
    requires Exclusive(w) && Enabled(w, s) && Exact(w, s)
    requires s.Claim? || s.Restore? || s.Reject? || s.Seal? || s.Recover? || s.Recheck? || s.Resume?
    ensures Exclusive(Do(w, s))
  {
    StepKeeps(w, s);
    var w' := Do(w, s);
    assert w'.helpers == w.helpers && w'.file == w.file && !w'.holder.value.who.Process?;
    forall t | 0 <= t < |w.helpers| && InAttempt(w', t) ensures Owns(w.file.events, t) && NoAppends(w'.holder.value.todo) {
      assert InAttempt(w, t);
      OperatorLeavesAttempt(w, s, t);
    }
  }

  lemma OwnerCommitted(log: seq<Event>, t: nat)
    requires Owns(log, t)
    ensures HasCommit(log, t)
  {
    assert log[|log| - 1].owner.token == Secret(t);
  }

  lemma EnterPreparingExclusive(w: World, t: nat, seen: Seen, todo: seq<Write>, verdict: Verdict)
    requires Exclusive(w) && w.holder.None? && t < |w.helpers| && w.helpers[t].pc.Waiting?
    requires Invariant(Enter(At(w, t, Preparing(seen)), Process(t), todo, verdict))
    requires verdict == Proceed ==> Owns(ViewAfter(ViewOf(w), todo).log, t)
    requires forall u :: 0 <= u < |w.helpers| && u != t && InAttempt(w, u) ==> NoAppends(todo)
    ensures Exclusive(Enter(At(w, t, Preparing(seen)), Process(t), todo, verdict))
  {
    var w' := Enter(At(w, t, Preparing(seen)), Process(t), todo, verdict);
    SameIdentities(w, t, Preparing(seen));
    assert ViewOf(w') == ViewOf(w);
    assert HelperGood(w, t);
    if verdict == Proceed && NoAppends(todo) {
      NoAppendsSameLog(ViewOf(w), todo);
      OwnerCommitted(w.file.events, t);
    }
    forall u | 0 <= u < |w'.helpers| && InAttempt(w', u) ensures u != t && InAttempt(w, u) {
    }
  }

  /** Preparing while somebody else's attempt is open writes nothing. */
  lemma PrepareLeavesAttempt(w: World, t: nat, durable: Durable, u: nat)
    requires Invariant(w) && Enabled(w, Prepare(t, durable))
    requires u < |w.helpers| && u != t && Owns(w.file.events, u)
    ensures NoAppends(PrepareWrites(w.receipt, w.file, w.record, Owner(Secret(t), w.helpers[t].identity), durable).0)
  {
    OpenAttemptReads(w, u);
  }

  lemma PrepareOwns(w: World, t: nat, durable: Durable, todo: seq<Write>, verdict: Verdict)
    requires Invariant(w) && t < |w.helpers|
    requires (todo, verdict) == PrepareWrites(w.receipt, w.file, w.record, Owner(Secret(t), w.helpers[t].identity), durable)
    ensures verdict == Proceed ==> Owns(ViewAfter(ViewOf(w), todo).log, t)
  {
    var v := ViewOf(w);
    assert w.file == File(v.log, v.torn) && v.helpers[t] == w.helpers[t].identity;
    PrepareLegal(v, w.record, t, durable);
    assert verdict == Proceed ==> var log := ViewAfter(v, todo).log; log[|log| - 1].CommittedEvent?;
  }

  lemma PrepareExclusive(w: World, t: nat, durable: Durable)
    requires Exclusive(w) && Enabled(w, Prepare(t, durable))
    ensures Exclusive(Do(w, Prepare(t, durable)))
  {
    StepKeeps(w, Prepare(t, durable));
    var (todo, verdict) := PrepareWrites(w.receipt, w.file, w.record, Owner(Secret(t), w.helpers[t].identity), durable);
    var loaded := Load(w.receipt, w.file);
    var category := if loaded.Ok? then loaded.value.category else "";
    forall u | 0 <= u < |w.helpers| && u != t && InAttempt(w, u) ensures NoAppends(todo) {
      PrepareLeavesAttempt(w, t, durable, u);
    }
    PrepareOwns(w, t, durable, todo, verdict);
    EnterPreparingExclusive(w, t, Seen(w.record, category), todo, verdict);
  }

  lemma RecordExclusive(w: World, t: nat, durable: Durable)
    requires Exclusive(w) && Enabled(w, RecordOutcome(t, durable))
    ensures Exclusive(Do(w, RecordOutcome(t, durable)))
  {
    StepKeeps(w, RecordOutcome(t, durable));
    var w', pc := Do(w, RecordOutcome(t, durable)), w.helpers[t].pc;
    OutcomeAppendsOnce(w.receipt, w.file, pc.seen.record, pc.seen.category, pc.outcome, durable);
    assert InAttempt(w, t);
    forall u | 0 <= u < |w'.helpers| && InAttempt(w', u) ensures u == t && Owns(w'.file.events, u) {
      assert InAttempt(w, u);
    }
  }

  lemma WriteLeavesAttempt(w: World, t: nat)
    requires Exclusive(w) && Enabled(w, WriteNext)
    requires t < |Do(w, WriteNext).helpers| && InAttempt(Do(w, WriteNext), t)
    ensures var h, w' := w.holder.value, Do(w, WriteNext);
      Owns(w'.file.events, t) && (h.who != Process(t) ==> NoAppends(h.todo[1..]))
  {
    var h, w' := w.holder.value, Do(w, WriteNext);
    var x, rest := h.todo[0], h.todo[1..];
    assert NoAppends(h.todo) ==> NoAppends(rest) && !x.Append?;
    PerformView(w, x);
    assert ViewOf(w') == ViewStep(ViewOf(w), x);
    if NoAppends(rest) {
      NoAppendsSameLog(ViewOf(w'), rest);
    }
    assert OneAppend(h.todo) && x.Append? ==> NoAppends(rest);
    assert t < |w.helpers|;
    if !InAttempt(w, t) {
      assert w'.file.events == ViewAfter(ViewOf(w), h.todo).log;
    }
  }

  lemma WriteExclusive(w: World)
    requires Exclusive(w) && Enabled(w, WriteNext)
    ensures Exclusive(Do(w, WriteNext))
  {
    StepKeeps(w, WriteNext);
    var h, w' := w.holder.value, Do(w, WriteNext);
    var x, rest := h.todo[0], h.todo[1..];
    assert NoAppends(h.todo) ==> NoAppends(rest) && !x.Append?;
    assert !x.Append? ==> (NoAppends(rest) <==> NoAppends(h.todo));
    PerformView(w, x);
    assert ViewOf(w') == ViewStep(ViewOf(w), x);
    if NoAppends(rest) {
      NoAppendsSameLog(ViewOf(w'), rest);
    }
    assert OneAppend(h.todo) && x.Append? ==> NoAppends(rest);
    forall t | 0 <= t < |w'.helpers| && InAttempt(w', t)
      ensures Owns(w'.file.events, t) && (h.who != Process(t) ==> NoAppends(rest))
    {
      WriteLeavesAttempt(w, t);
    }
  }

  lemma ReleaseExclusive(w: World)
    requires Exclusive(w) && Enabled(w, Release)
    ensures Exclusive(Do(w, Release))
  {
    StepKeeps(w, Release);
    var w' := Do(w, Release);
    forall t | 0 <= t < |w'.helpers| && InAttempt(w', t) ensures InAttempt(w, t) {
      assert HelperGood(w, t);
    }
  }

  /** A region that breaks off does not touch the log under somebody else's open attempt. */
  lemma InterruptLeavesAttempt(w: World, fault: Fault, t: nat)
    requires Exclusive(w) && w.holder.Some? && FaultFits(w.holder.value.todo, fault)
    requires t < |w.helpers| && InAttempt(w, t) && w.holder.value.who != Process(t)
    ensures Interrupt(w, w.holder.value.todo, fault).file.events == w.file.events
  {
    assert NoAppends(w.holder.value.todo);
  }

  /** Whoever is still in an attempt after a death or a failure was in it before, on the same log. */
  lemma LossLeavesAttempt(w: World, s: Step, t: nat)
    requires Exclusive(w) && Enabled(w, s) && (s.WriteFails? || s.OperatorDies? || s.HelperDies?)
    requires t < |Do(w, s).helpers| && InAttempt(Do(w, s), t)
    ensures t < |w.helpers| && InAttempt(w, t)
    ensures Do(w, s).file.events == w.file.events
  {
    if s.HelperDies? {
      DeathLeavesAttempt(w, s, t);
    } else if s.WriteFails? {
      FailureLeavesAttempt(w, s, t);
    } else {
      LossOfHolder(w, s, t);
    }
  }

  lemma DeathLeavesAttempt(w: World, s: Step, t: nat)
    requires Exclusive(w) && Enabled(w, s) && s.HelperDies?
    requires t < |Do(w, s).helpers| && InAttempt(Do(w, s), t)
    ensures t < |w.helpers| && InAttempt(w, t) && Do(w, s).file.events == w.file.events
  {
    if Holds(w, s.t) {
      LossOfHolder(w, s, t);
    }
  }

  lemma FailureLeavesAttempt(w: World, s: Step, t: nat)
    requires Exclusive(w) && Enabled(w, s) && s.WriteFails?
    requires t < |Do(w, s).helpers| && InAttempt(Do(w, s), t)
    ensures t < |w.helpers| && InAttempt(w, t) && Do(w, s).file.events == w.file.events
  {
    SurvivorIsSame(w, s, t);
    LossOfHolder(w, s, t);
  }

  lemma SurvivorIsSame(w: World, s: Step, t: nat)
    requires Enabled(w, s) && s.WriteFails? && t < |Do(w, s).helpers| && InAttempt(Do(w, s), t)
    ensures t < |w.helpers| && Do(w, s).helpers[t] == w.helpers[t]
  {
  }

  lemma LossOfHolder(w: World, s: Step, t: nat)
    requires Exclusive(w) && Enabled(w, s) && (s.WriteFails? || s.OperatorDies? || (s.HelperDies? && Holds(w, s.t)))
    requires w.holder.Some? && t < |w.helpers| && t < |Do(w, s).helpers| && Do(w, s).helpers[t] == w.helpers[t]
    requires InAttempt(Do(w, s), t)
    ensures InAttempt(w, t) && Do(w, s).file.events == w.file.events
  {
    assert Do(w, s).holder.None? && w.holder.value.who != Process(t);
    assert HelperGood(w, t);
    InterruptLeavesAttempt(w, s.fault, t);
  }

  lemma LossExclusive(w: World, s: Step)
    requires Exclusive(w) && Enabled(w, s) && (s.WriteFails? || s.OperatorDies? || s.HelperDies?)
    ensures Exclusive(Do(w, s))
  {
    StepKeeps(w, s);
    var w' := Do(w, s);
    forall t | 0 <= t < |w'.helpers| && InAttempt(w', t) ensures Owns(w'.file.events, t) {
      LossLeavesAttempt(w, s, t);
    }
    if w'.holder.Some? {
      SameIdentities(w, s.t, Exited);
    }
  }

  lemma QuietExclusive(w: World, s: Step)
    requires Exclusive(w) && Enabled(w, s)
    requires s.StartAction? || s.EndAction? || s.ResumeEnds? || s.FreezeLate? || s.EditRecord?
    ensures Exclusive(Do(w, s))
  {
    StepKeeps(w, s);
    var w' := Do(w, s);
    assert ViewOf(w').helpers == ViewOf(w).helpers;
    forall t | 0 <= t < |w'.helpers| && InAttempt(w', t) ensures InAttempt(w, t) {
    }
    if w.holder.Some? {
      LegalObservesMore(ViewOf(w), w.holder.value.who, w.holder.value.todo, w'.observed);
      assert ViewOf(w') == ViewOf(w).(observed := w'.observed);
    }
  }

  lemma ExactStepKeeps(w: World, s: Step)
    requires Exclusive(w) && Enabled(w, s) && Exact(w, s)
    ensures Exclusive(Do(w, s))
  {
    match s
    case Claim | Restore | Reject | Seal | Recover(_) | Recheck(_) | Resume => EnterExclusive(w, s);
    case Prepare(t, durable) => PrepareExclusive(w, t, durable);
    case RecordOutcome(t, durable) => RecordExclusive(w, t, durable);
    case WriteNext => WriteExclusive(w);
    case Release => ReleaseExclusive(w);
    case WriteFails(_) | OperatorDies(_) | HelperDies(_, _) => LossExclusive(w, s);
    case StartAction(_) | EndAction(_, _) | ResumeEnds(_) | FreezeLate | EditRecord(_) => QuietExclusive(w, s);
  }

  lemma {:induction false} ExactRunKeeps(w: World, run: seq<Step>)
    requires Exclusive(w) && Possible(w, run) && ExactRun(w, run)
    ensures Exclusive(After(w, run))
    decreases |run|
  {
    if run != [] {
      ExactStepKeeps(w, run[0]);
      ExactRunKeeps(Do(w, run[0]), run[1..]);
    }
  }

  /** Mutual exclusion, for every category and through any number of Office resumes and cron retries. */
  lemma OneHelperInAttempt(w0: World, run: seq<Step>, t: nat, u: nat)
    requires Init(w0) && Possible(w0, run) && ExactRun(w0, run)
    requires var w := After(w0, run);
             t < |w.helpers| && u < |w.helpers| && InAttempt(w, t) && InAttempt(w, u)
    ensures t == u
    ensures var log := After(w0, run).file.events;
            PhaseOf(Trusting(), log) == Ok(AttemptCommitted) && Owns(log, t)
  {
    ExactRunKeeps(w0, run);
  }

  /** A helper that finds another token in the journal, or no open launch at all, exits without acting. */
  lemma StaleHelperQuits(w: World, t: nat, durable: Durable)
    requires Invariant(w) && Enabled(w, Prepare(t, durable))
    requires var s := Load(w.receipt, w.file);
             s.Ok? ==> s.value.phase != Ready && (s.value.phase == HelperStarted ==> s.value.owner.value.token != Secret(t))
    ensures Do(w, Prepare(t, durable)).holder.value.verdict == Quit
    ensures NoAppends(Do(w, Prepare(t, durable)).holder.value.todo)
  {
    assert HelperGood(w, t);
    var s := Load(w.receipt, w.file);
    if s.Ok? && s.value.phase == AttemptCommitted {
      var log := w.file.events;
      assert log[|log| - 1].CommittedEvent?;
    }
  }
}

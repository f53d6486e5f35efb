/** The invariant of every reachable world, kept by every step of every process, including the ones that die. */
module ApprovalInvariant {
  import opened Outcomes
  import opened ExecutionState
  import opened ExecutionLedger
  import opened ExecutionJournal
  import opened ApprovalPlans
  import opened ApprovalProtocol
  import opened ApprovalLegality

  /** Helper `t` committed an attempt in its own name. */
  ghost predicate HasCommit(log: seq<Event>, t: nat) {
    exists i :: 0 <= i < |log| && log[i].CommittedEvent? && log[i].owner.token == Secret(t)
  }

  predicate SealedAs(log: seq<Event>, category: string) {
    log != [] && log[0].ArmedEvent? && log[0].category == category
  }

  ghost predicate HelperGood(w: World, t: nat)
    requires t < |w.helpers|
  {
    var log := w.file.events;
    match w.helpers[t].pc
    case Waiting => !HasCommit(log, t)
    case Preparing(seen) => Holds(w, t)
    case Prepared(seen) => HasCommit(log, t) && SealedAs(log, seen.category) && t !in w.started
    case Acting(seen) => HasCommit(log, t) && SealedAs(log, seen.category)
    case Finished(seen, outcome) =>
      && HasCommit(log, t) && SealedAs(log, seen.category)
      && (outcome.Returned? ==> outcome.result in w.observed)
    case Recording => HasCommit(log, t) && Holds(w, t)
    case Exited => true
  }

  predicate PastStart(pc: Pc) {
    pc.Acting? || pc.Finished? || pc.Recording? || pc.Exited?
  }

  ghost predicate HolderGood(w: World) {
    w.holder.Some? ==>
      var h := w.holder.value;
      && Legal(ViewOf(w), h.who, h.todo)
      && (h.who == Resumer && h.verdict == Proceed ==> HasSuccess(w.file.events))
      && (h.who.Process? ==>
            && h.who.token < |w.helpers|
            && (w.helpers[h.who.token].pc.Preparing? || w.helpers[h.who.token].pc.Recording?)
            && (w.helpers[h.who.token].pc.Preparing? ==> h.who.token !in w.started)
            && (w.helpers[h.who.token].pc.Preparing? && h.verdict == Proceed ==>
                  && SealedAs(w.file.events, w.helpers[h.who.token].pc.seen.category)
                  && HasCommit(ViewAfter(ViewOf(w), h.todo).log, h.who.token)))
  }

  ghost predicate StartedGood(w: World) {
    && (forall i :: 0 <= i < |w.started| ==>
          && w.started[i] < |w.helpers|
          && HasCommit(w.file.events, w.started[i])
          && PastStart(w.helpers[w.started[i]].pc))
    && (forall i, j :: 0 <= i < j < |w.started| ==> w.started[i] != w.started[j])
  }

  ghost predicate Invariant(w: World) {
    && GoodView(ViewOf(w))
    && HolderGood(w)
    && (forall t :: 0 <= t < |w.helpers| ==> HelperGood(w, t))
    && StartedGood(w)
    && (Delivered(w.record.status) || w.continuing > 0 ==> HasSuccess(w.file.events))
  }

  // -- monotonicity ----------------------------------------------------------------

  lemma {:induction false} LegalObservesMore(v: View, who: Who, todo: seq<Write>, more: set<string>)
    requires Legal(v, who, todo) && v.observed <= more
    ensures Legal(v.(observed := more), who, todo)
    ensures ViewAfter(v.(observed := more), todo).log == ViewAfter(v, todo).log
    decreases |todo|
  {
    if todo != [] {
      LegalObservesMore(ViewStep(v, todo[0]), who, todo[1..], more);
    }
  }

  lemma PerformView(w: World, x: Write)
    ensures ViewOf(Perform(w, x)) == ViewStep(ViewOf(w), x)
  {
    var a, b := ViewOf(Perform(w, x)).helpers, ViewStep(ViewOf(w), x).helpers;
    assert |a| == |b|;
    forall i | 0 <= i < |a| ensures a[i] == b[i] {
    }
  }

  lemma SameIdentities(w: World, t: nat, pc: Pc)
    requires t < |w.helpers|
    ensures ViewOf(At(w, t, pc)) == ViewOf(w)
  {
    assert ViewOf(At(w, t, pc)).helpers == ViewOf(w).helpers;
  }

  // -- steps -----------------------------------------------------------------------

  lemma EnterKeeps(w: World, who: Who, todo: seq<Write>, verdict: Verdict, more: set<string>)
    requires Invariant(w) && w.holder.None? && w.observed <= more && !who.Process?
    requires Legal(ViewOf(w).(observed := more), who, todo)
    requires who == Resumer && verdict == Proceed ==> HasSuccess(w.file.events)
    ensures Invariant(Enter(w.(observed := more), who, todo, verdict))
  {
    var w' := Enter(w.(observed := more), who, todo, verdict);
    assert ViewOf(w').helpers == ViewOf(w).helpers;
    assert GoodView(ViewOf(w'));
    forall t | 0 <= t < |w'.helpers| ensures HelperGood(w', t) {
      assert HelperGood(w, t);
    }
  }

  /** Performing a pending write keeps every helper's standing and every history. */
  lemma PerformKeeps(w: World, who: Who, x: Write)
    requires Invariant(w) && w.holder.Some? && w.holder.value.who == who
    requires LegalWrite(ViewOf(w), who, x)
    ensures var w' := Perform(w, x);
            && GoodView(ViewOf(w')) && StartedGood(w')
            && (forall t :: 0 <= t < |w'.helpers| ==> HelperGood(w', t))
            && (Delivered(w'.record.status) || w'.continuing > 0 ==> HasSuccess(w'.file.events))
  {
    var w' := Perform(w, x);
    var log, log' := w.file.events, w'.file.events;
    PerformView(w, x);
    LegalWriteKeepsGood(ViewOf(w), who, x);
    assert forall i :: 0 <= i < |log| ==> log[i] == log'[i];
    assert forall t: nat :: HasCommit(log, t) ==> HasCommit(log', t);
    assert HasSuccess(log) ==> HasSuccess(log');
    forall t | 0 <= t < |w'.helpers| ensures HelperGood(w', t) {
      PerformKeepsHelper(w, who, x, t);
    }
  }

  lemma PerformKeepsHelper(w: World, who: Who, x: Write, t: nat)
    requires Invariant(w) && w.holder.Some? && w.holder.value.who == who
    requires LegalWrite(ViewOf(w), who, x) && t < |Perform(w, x).helpers|
    ensures HelperGood(Perform(w, x), t)
  {
    var log, log' := w.file.events, Perform(w, x).file.events;
    assert forall i :: 0 <= i < |log| ==> log[i] == log'[i];
    assert forall u: nat :: HasCommit(log, u) ==> HasCommit(log', u);
    assert HasSuccess(log) ==> HasSuccess(log');
    if t < |w.helpers| {
      assert HelperGood(w, t);
    } else {
      assert forall i :: 0 <= i < |log| ==> OwnerKnown(log[i], ViewOf(w).helpers);
    }
  }

  lemma WriteNextKeeps(w: World)
    requires Invariant(w) && Enabled(w, WriteNext)
    ensures Invariant(Do(w, WriteNext))
  {
    var h := w.holder.value;
    var x := h.todo[0];
    var mid, w' := Perform(w, x), Do(w, WriteNext);
    PerformKeeps(w, h.who, x);
    PerformView(w, x);
    assert ViewOf(w') == ViewOf(mid);
    forall t | 0 <= t < |w'.helpers| ensures HelperGood(w', t) {
      assert HelperGood(mid, t);
    }
  }

  /** A region that stops in the middle of a write leaves the journal good, and nobody holding the lock. */
  lemma InterruptKeeps(w: World, fault: Fault)
    requires Invariant(w) && w.holder.Some? && FaultFits(w.holder.value.todo, fault)
    ensures var hit := Interrupt(w, w.holder.value.todo, fault);
            && GoodView(ViewOf(hit)) && StartedGood(hit)
            && (forall t :: 0 <= t < |hit.helpers| ==> HelperGood(hit, t))
            && (Delivered(hit.record.status) || hit.continuing > 0 ==> HasSuccess(hit.file.events))
  {
    match fault
    case Nothing =>
    case Whole => PerformKeeps(w, w.holder.value.who, w.holder.value.todo[0]);
    case Partial =>
      var hit := Interrupt(w, w.holder.value.todo, fault);
      assert ViewOf(hit).helpers == ViewOf(w).helpers;
      forall t | 0 <= t < |hit.helpers| ensures HelperGood(hit, t) {
        assert HelperGood(w, t);
      }
  }

  /** Letting go of the lock is fine once its holder, if a helper, has exited. */
  lemma LetGoKeeps(hit: World, gone: Option<nat>)
    requires GoodView(ViewOf(hit)) && StartedGood(hit) && hit.holder.Some?
    requires forall t :: 0 <= t < |hit.helpers| ==> HelperGood(hit, t)
    requires Delivered(hit.record.status) || hit.continuing > 0 ==> HasSuccess(hit.file.events)
    requires gone.Some? ==> gone.value < |hit.helpers|
    requires hit.holder.value.who.Process? ==> gone == Some(hit.holder.value.who.token)
    ensures var free := hit.(holder := None);
            Invariant(if gone.Some? then At(free, gone.value, Exited) else free)
  {
    var free := hit.(holder := None);
    var w' := if gone.Some? then At(free, gone.value, Exited) else free;
    assert ViewOf(w').helpers == ViewOf(hit).helpers;
    forall t | 0 <= t < |w'.helpers| ensures HelperGood(w', t) {
      assert HelperGood(hit, t);
    }
  }

  lemma FailureKeeps(w: World, s: Step)
    requires Invariant(w) && Enabled(w, s) && (s.WriteFails? || s.OperatorDies?)
    ensures Invariant(Do(w, s))
  {
    var h := w.holder.value;
    var hit := Interrupt(w, h.todo, s.fault);
    InterruptKeeps(w, s.fault);
    if h.who.Process? {
      LetGoKeeps(hit, Some(h.who.token));
    } else {
      LetGoKeeps(hit, None);
      if s.WriteFails? && Kill(hit.(holder := None), h.todo[0]) != hit.(holder := None) {
        LetGoKeeps(hit, Some(h.todo[0].event.owner.token.id));
      }
    }
  }

  lemma HelperDeathKeeps(w: World, t: nat, fault: Fault)
    requires Invariant(w) && Enabled(w, HelperDies(t, fault))
    ensures Invariant(Do(w, HelperDies(t, fault)))
  {
    if Holds(w, t) {
      InterruptKeeps(w, fault);
      LetGoKeeps(Interrupt(w, w.holder.value.todo, fault), Some(t));
    } else {
      var w' := Do(w, HelperDies(t, fault));
      SameIdentities(w, t, Exited);
      forall u | 0 <= u < |w'.helpers| ensures HelperGood(w', u) {
        assert HelperGood(w, u);
      }
    }
  }

  lemma ReleaseKeeps(w: World)
    requires Invariant(w) && Enabled(w, Release)
    ensures Invariant(Do(w, Release))
  {
    var h := w.holder.value;
    var w' := Do(w, Release);
    if h.who.Process? {
      var t := h.who.token;
      assert HelperGood(w, t);
      SameIdentities(w.(holder := None), t, w'.helpers[t].pc);
    }
    assert ViewOf(w').helpers == ViewOf(w).helpers;
    forall u | 0 <= u < |w'.helpers| ensures HelperGood(w', u) {
      assert HelperGood(w, u);
    }
  }

  /** A helper takes the lock to prepare. */
  lemma EnterPreparingKeeps(w: World, t: nat, seen: Seen, todo: seq<Write>, verdict: Verdict)
    requires Invariant(w) && w.holder.None? && t < |w.helpers| && w.helpers[t].pc.Waiting?
    requires Legal(ViewOf(w), Process(t), todo)
    requires verdict == Proceed ==> SealedAs(w.file.events, seen.category) && HasCommit(ViewAfter(ViewOf(w), todo).log, t)
    ensures Invariant(Enter(At(w, t, Preparing(seen)), Process(t), todo, verdict))
  {
    var w' := Enter(At(w, t, Preparing(seen)), Process(t), todo, verdict);
    SameIdentities(w, t, Preparing(seen));
    assert ViewOf(w') == ViewOf(w);
    assert HelperGood(w, t);
    forall u | 0 <= u < |w'.helpers| ensures HelperGood(w', u) {
      assert HelperGood(w, u);
    }
  }

  lemma PrepareFacts(w: World, t: nat, durable: Durable, todo: seq<Write>, verdict: Verdict, category: string)
    requires Invariant(w) && t < |w.helpers|
    requires (todo, verdict) == PrepareWrites(w.receipt, w.file, w.record, Owner(Secret(t), w.helpers[t].identity), durable)
    requires category == if Load(w.receipt, w.file).Ok? then Load(w.receipt, w.file).value.category else ""
    ensures Legal(ViewOf(w), Process(t), todo)
    ensures verdict == Proceed ==> SealedAs(w.file.events, category) && HasCommit(ViewAfter(ViewOf(w), todo).log, t)
  {
    var v := ViewOf(w);
    assert w.file == File(v.log, v.torn) && v.helpers[t] == w.helpers[t].identity;
    PrepareLegal(v, w.record, t, durable);
    if verdict == Proceed {
      var log := ViewAfter(v, todo).log;
      assert log[|log| - 1].CommittedEvent?;
    }
  }

  lemma PrepareKeeps(w: World, t: nat, durable: Durable)
    requires Invariant(w) && Enabled(w, Prepare(t, durable))
    ensures Invariant(Do(w, Prepare(t, durable)))
  {
    var (todo, verdict) := PrepareWrites(w.receipt, w.file, w.record, Owner(Secret(t), w.helpers[t].identity), durable);
    var loaded := Load(w.receipt, w.file);
    var category := if loaded.Ok? then loaded.value.category else "";
    PrepareFacts(w, t, durable, todo, verdict, category);
    EnterPreparingKeeps(w, t, Seen(w.record, category), todo, verdict);
  }

  lemma ActionKeeps(w: World, s: Step)
    requires Invariant(w) && Enabled(w, s) && (s.StartAction? || s.EndAction?)
    ensures Invariant(Do(w, s))
  {
    var w' := Do(w, s);
    assert HelperGood(w, s.t);
    assert ViewOf(w').helpers == ViewOf(w).helpers;
    assert ViewOf(w') == ViewOf(w).(observed := w'.observed);
    if w.holder.Some? {
      LegalObservesMore(ViewOf(w), w.holder.value.who, w.holder.value.todo, w'.observed);
    }
    forall u | 0 <= u < |w'.helpers| ensures HelperGood(w', u) {
      assert HelperGood(w, u);
    }
  }

  lemma RecordKeeps(w: World, t: nat, durable: Durable)
    requires Invariant(w) && Enabled(w, RecordOutcome(t, durable))
    ensures Invariant(Do(w, RecordOutcome(t, durable)))
  {
    var w' := Do(w, RecordOutcome(t, durable));
    var v, pc := ViewOf(w), w.helpers[t].pc;
    assert HelperGood(w, t);
    OutcomeWritesLegal(v, pc.seen.record, pc.seen.category, t, pc.outcome, durable);
    SameIdentities(w, t, Recording);
    assert ViewOf(w') == v && w.file == File(v.log, v.torn);
    forall u | 0 <= u < |w'.helpers| ensures HelperGood(w', u) {
      assert HelperGood(w, u);
    }
  }

  lemma RecordOnlyKeeps(w: World, s: Step)
    requires Invariant(w) && Enabled(w, s) && (s.ResumeEnds? || s.FreezeLate? || s.EditRecord?)
    ensures Invariant(Do(w, s))
  {
    var w' := Do(w, s);
    assert ViewOf(w').helpers == ViewOf(w).helpers;
    forall u | 0 <= u < |w'.helpers| ensures HelperGood(w', u) {
      assert HelperGood(w, u);
    }
  }

  lemma OperatorKeeps(w: World, s: Step)
    requires Invariant(w) && Enabled(w, s)
    requires s.Claim? || s.Restore? || s.Reject? || s.Seal? || s.Recover? || s.Recheck? || s.Resume?
    ensures Invariant(Do(w, s))
  {
    var w' := Do(w, s);
    var h := w'.holder.value;
    var v := ViewOf(w).(observed := w'.observed);
    assert w.file == File(v.log, v.torn) && |v.helpers| == |w.helpers|;
    assert GoodView(v);
    if s.Recover? {
      if !Exists(w.file) {
        MigrateLegal(v, w.record, s.a);
      } else if w.record.status != Frozen {
        RecoverLoadedLegal(v, w.record, s.a);
      }
    } else if s.Recheck? {
      RecheckLegal(v, w.record, s.a);
    } else if s.Seal? {
      SealLegal(v, w.record);
    } else if h.todo != [] {
      LegalOne(v, h.who, h.todo[0]);
      assert h.todo == [h.todo[0]];
    }
    EnterKeeps(w, h.who, h.todo, h.verdict, w'.observed);
  }

  lemma StepKeeps(w: World, s: Step)
    requires Invariant(w) && Enabled(w, s)
    ensures Invariant(Do(w, s))
  {
    match s
    case Claim | Restore | Reject | Seal | Recover(_) | Recheck(_) | Resume => OperatorKeeps(w, s);
    case ResumeEnds(_) | FreezeLate | EditRecord(_) => RecordOnlyKeeps(w, s);
    case Prepare(t, durable) => PrepareKeeps(w, t, durable);
    case StartAction(_) | EndAction(_, _) => ActionKeeps(w, s);
    case RecordOutcome(t, durable) => RecordKeeps(w, t, durable);
    case WriteNext => WriteNextKeeps(w);
    case Release => ReleaseKeeps(w);
    case WriteFails(_) | OperatorDies(_) => FailureKeeps(w, s);
    case HelperDies(t, fault) => HelperDeathKeeps(w, t, fault);
  }

  /** Every world of every run from a fresh record satisfies the invariant. */
  lemma {:induction false} RunKeeps(w: World, run: seq<Step>)
    requires Invariant(w) && Possible(w, run)
    ensures Invariant(After(w, run))
    decreases |run|
  {
    if run != [] {
      StepKeeps(w, run[0]);
      RunKeeps(Do(w, run[0]), run[1..]);
    }
  }
}

/** What the invariant means over whole runs: how often an action starts, and what a delivered mail proves. */
module ApprovalTheorems {
  import opened Outcomes
  import opened ExecutionState
  import opened ExecutionLedger
  import opened ExecutionJournal
  import opened ApprovalPlans
  import opened ApprovalProtocol
  import opened ApprovalLegality
  import opened ApprovalInvariant

  lemma InitHolds(w: World)
    requires Init(w)
    ensures Invariant(w)
  {
  }

  lemma Reachable(w0: World, run: seq<Step>)
    requires Init(w0) && Possible(w0, run)
    ensures Invariant(After(w0, run))
  {
    InitHolds(w0);
    RunKeeps(w0, run);
  }

  function Tokens(started: seq<nat>): set<nat> {
    set i | 0 <= i < |started| :: started[i]
  }

  lemma {:induction false} DistinctTokens(started: seq<nat>)
    requires forall i, j :: 0 <= i < j < |started| ==> started[i] != started[j]
    ensures |Tokens(started)| == |started|
  {
    if started != [] {
      var n := |started| - 1;
      DistinctTokens(started[..n]);
      assert Tokens(started) == Tokens(started[..n]) + {started[n]};
    }
  }

  /** Every token of a set that committed owns at least one commit of the log. */
  lemma {:induction false} CommitsCoverTokens(log: seq<Event>, tokens: set<nat>)
    requires forall t :: t in tokens ==> HasCommit(log, t)
    ensures |tokens| <= Commits(log)
    decreases |log|
  {
    if log == [] {
      assert forall t: nat :: !HasCommit(log, t);
      assert tokens == {};
    } else {
      var n := |log| - 1;
      var last := log[n];
      var rest := if last.CommittedEvent? && last.owner.token.Secret? then tokens - {last.owner.token.id} else tokens;
      forall t | t in rest ensures HasCommit(log[..n], t) {
        var i :| 0 <= i < |log| && log[i].CommittedEvent? && log[i].owner.token == Secret(t);
        assert i < n && log[..n][i] == log[i];
      }
      CommitsCoverTokens(log[..n], rest);
      if rest != tokens && last.owner.token.id in tokens {
        assert tokens == rest + {last.owner.token.id};
      }
    }
  }

  /** An action never starts more often than its journal commits an attempt. */
  lemma StartsAreCommitted(w0: World, run: seq<Step>)
    requires Init(w0) && Possible(w0, run)
    ensures |After(w0, run).started| <= Commits(After(w0, run).file.events)
  {
    Reachable(w0, run);
    var w := After(w0, run);
    DistinctTokens(w.started);
    CommitsCoverTokens(w.file.events, Tokens(w.started));
  }

  /** At most once: over every interleaving and every crash, an action starts once, plus once per retryable
      cron failure, plus once per Office resume. Nothing is assumed about how well live owners are recognized. */
  lemma AtMostOnce(w0: World, run: seq<Step>)
    requires Init(w0) && Possible(w0, run)
    ensures var w := After(w0, run);
            var log := w.file.events;
            && (log == [] ==> w.started == [])
            && (log != [] ==> log[0].ArmedEvent?)
            && (log != [] ==>
                  var category := log[0].category;
                  && (!IsOffice(category) && category != CRON ==> |w.started| <= 1)
                  && (category == CRON ==> |w.started| <= 1 + RetryableFailures(log))
                  && (IsOffice(category) ==> |w.started| <= 1 + Edges(log, AttemptCommitted, Ready)))
  {
    StartsAreCommitted(w0, run);
    Reachable(w0, run);
    var log := After(w0, run).file.events;
    if log != [] {
      AttemptBound(log);
    }
  }

  /** Mail honesty: a sealed mail send is delivered, continued or finished only on the strength of an
      obtained receipt that said submitted. */
  lemma MailHonesty(w0: World, run: seq<Step>)
    requires Init(w0) && Possible(w0, run)
    ensures var w := After(w0, run);
            Delivered(w.record.status) ==>
              && HasSuccess(w.file.events)
              && w.file.events[0].ArmedEvent?
              && (w.file.events[0].category == MAIL ==>
                    exists text :: text in w.observed && w.receipt(text) == SUBMITTED)
  {
    Reachable(w0, run);
    var w := After(w0, run);
    if Delivered(w.record.status) {
      var i :| 0 <= i < |w.file.events| && w.file.events[i].SucceededEvent?;
      if w.file.events[0].category == MAIL {
        assert Backed(w.receipt, w.observed, w.file.events[i].result);
      }
    }
  }

  /** The journal's events are never rewritten, so a recorded success is there for ever: whatever follows
      it in time, the log still ends in it. */
  lemma {:induction false} LogOnlyGrows(w: World, run: seq<Step>)
    requires Possible(w, run)
    ensures w.file.events <= After(w, run).file.events
    decreases |run|
  {
    if run != [] {
      LogOnlyGrows(Do(w, run[0]), run[1..]);
    }
  }

  lemma SuccessIsFinal(w0: World, early: seq<Step>, late: seq<Step>)
    requires Init(w0) && Possible(w0, early) && Possible(After(w0, early), late)
    requires var log := After(w0, early).file.events; log != [] && log[|log| - 1].SucceededEvent?
    ensures After(After(w0, early), late).file.events == After(w0, early).file.events
  {
    var mid := After(w0, early);
    Reachable(w0, early);
    RunKeeps(mid, late);
    LogOnlyGrows(mid, late);
    var log, log' := mid.file.events, After(mid, late).file.events;
    if |log| < |log'| {
      TerminalAbsorbs(log', |log|);
    }
  }

  /** Rechecking a mail appends at most its confirmation: it never launches, starts or commits anything. */
  lemma RecheckNeverSends(receipt: string -> string, file: File, r: Record, a: Answers, i: nat)
    requires i < |RecheckWrites(receipt, file, r, a)|
    ensures var x := RecheckWrites(receipt, file, r, a)[i];
            && !x.Spawn?
            && (x.Append? ==> i == 0 && x.event.SucceededEvent? && RecheckAsks(receipt, file, r)
                              && a.reconciled.Observed? && receipt(a.reconciled.receipt) == SUBMITTED)
  {
  }
}

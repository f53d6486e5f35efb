/** Counting laws of every log the replay accepts: how often an attempt can be committed. */
module ExecutionLedger {
  import opened Outcomes
  import opened ExecutionState

  /** A reader that believes every receipt. Replaying with it checks the shape of a log only. */
  function Trusting(): string -> string {
    (r: string) => SUBMITTED
  }

  ghost predicate Structural(log: seq<Event>) {
    PhaseOf(Trusting(), log).Ok?
  }

  function Commits(log: seq<Event>): nat {
    if log == [] then 0
    else Commits(log[..|log| - 1]) + if log[|log| - 1].CommittedEvent? then 1 else 0
  }

  function RetryableFailures(log: seq<Event>): nat {
    if log == [] then 0
    else RetryableFailures(log[..|log| - 1]) + if log[|log| - 1].RetryableEvent? then 1 else 0
  }

  /** How often an event of kind `to` directly follows one of kind `from`. */
  function Edges(log: seq<Event>, from: Phase, to: Phase): nat {
    if |log| < 2 then 0
    else
      Edges(log[..|log| - 1], from, to)
      + if KindOf(log[|log| - 2]) == Some(from) && KindOf(log[|log| - 1]) == Some(to) then 1 else 0
  }

  /** Attempts that received an outcome of their own. */
  function Settled(log: seq<Event>): nat {
    Edges(log, AttemptCommitted, Succeeded) + Edges(log, AttemptCommitted, Failed)
    + Edges(log, AttemptCommitted, RetryableFailure) + Edges(log, AttemptCommitted, OutcomeUnknown)
  }

  predicate BeforeAttempt(p: Phase) {
    p == Armed || p == Ready || p == HelperStarted
  }

  /** Dropping the receipt check only accepts more logs, and never changes the phase. */
  lemma {:induction false} AcceptedIsStructural(receipt: string -> string, log: seq<Event>)
    requires PhaseOf(receipt, log).Ok?
    ensures PhaseOf(Trusting(), log) == PhaseOf(receipt, log)
  {
    if |log| > 1 {
      AcceptedIsStructural(receipt, log[..|log| - 1]);
    }
  }

  /** Every committed attempt is settled, resumed, or still open; and only resumes and retries buy another one. */
  lemma {:induction false} AttemptsBalance(log: seq<Event>)
    requires Structural(log)
    ensures var phase := PhaseOf(Trusting(), log).value;
            && Commits(log) == Settled(log) + Edges(log, AttemptCommitted, Ready) + (if phase == AttemptCommitted then 1 else 0)
            && Commits(log) + (if BeforeAttempt(phase) then 1 else 0)
               == 1 + Edges(log, AttemptCommitted, Ready) + Edges(log, RetryableFailure, Ready)
  {
    if |log| == 1 {
      assert Commits(log[..0]) == 0;
    } else {
      AttemptsBalance(log[..|log| - 1]);
    }
  }

  /** Re-opening is tied to the category: resumes are Office's, retries are cron's and are paid for one by one. */
  lemma {:induction false} ReopeningsByCategory(log: seq<Event>)
    requires Structural(log)
    ensures Edges(log, AttemptCommitted, Ready) > 0 ==> IsOffice(log[0].category)
    ensures Edges(log, RetryableFailure, Ready) > 0 ==> log[0].category == CRON
    ensures Edges(log, RetryableFailure, Ready)
            + (if PhaseOf(Trusting(), log).value == RetryableFailure then 1 else 0) <= RetryableFailures(log)
  {
    if |log| > 1 {
      ReopeningsByCategory(log[..|log| - 1]);
    }
  }

  /** The attempt bound: one, plus one per Office resume, plus one per retryable cron failure. */
  lemma AttemptBound(log: seq<Event>)
    requires Structural(log)
    ensures !IsOffice(log[0].category) && log[0].category != CRON ==> Commits(log) <= 1
    ensures log[0].category == CRON ==> Commits(log) <= 1 + RetryableFailures(log)
    ensures IsOffice(log[0].category) ==> Commits(log) <= 1 + Edges(log, AttemptCommitted, Ready)
  {
    AttemptsBalance(log);
    ReopeningsByCategory(log);
  }

  /** A structural log has structural prefixes, of the same category. */
  lemma {:induction false} PrefixStructural(log: seq<Event>, n: nat)
    requires Structural(log) && 0 < n <= |log|
    ensures Structural(log[..n])
    decreases |log|
  {
    if n == |log| {
      assert log[..n] == log;
    } else {
      PrefixStructural(log[..|log| - 1], n);
      assert log[..|log| - 1][..n] == log[..n];
    }
  }

  /** Terminal phases are absorbing: after an outcome only a cron retry or a confirmed mail may follow. */
  lemma {:induction false} TerminalAbsorbs(log: seq<Event>, n: nat)
    requires Structural(log) && 0 < n < |log|
    ensures !log[n - 1].SucceededEvent? && !log[n - 1].FailedEvent?
    ensures log[n - 1].UnknownEvent? ==> log[0].category == MAIL && log[n].SucceededEvent? && |log| == n + 1
    ensures log[n - 1].RetryableEvent? ==> log[0].category == CRON && log[n].ReadyEvent?
  {
    PrefixStructural(log, n + 1);
    assert log[..n + 1][..n] == log[..n];
    assert TransitionValid(Trusting(), log[0].category, PhaseOf(Trusting(), log[..n]).value, log[n]);
    if log[n - 1].UnknownEvent? && n + 1 < |log| {
      PrefixStructural(log, n + 2);
    }
  }
}

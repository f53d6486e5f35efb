# Birkin, modelled and proved

Birkin is a personal agent runtime. This project models the parts of it that must stay right across crashes,
interleavings and awkward input, and proves what they promise. Run `dafny verify dfyconfig.toml` to check it all.

**Approval execution.** A claimed approval is sealed in a hash-chained append-only journal; a helper process with a token of
its own commits an attempt under the record's file lock, runs the irreversible action outside the lock, and records how it
ended. Anybody can die between any two durable writes, and a write can be torn.
`ExecutionState`, `ExecutionLedger`, `ExecutionJournal` and `JournalFile` are the journal: its replay, its counting laws, its
guarded writers and its text; `JournalScripts` calls the writers in any order, and `JournalOnDisk` ties the text to the events. `ApprovalPlans` says which durable writes each lock-held region owes; `ApprovalExecution` runs
the regions as the program does, on a record and a journal that change in place, and proves that each writes exactly its plan.
`ApprovalProtocol` interleaves regions, helpers, deaths and faults one write at a time. `ApprovalLegality`,
`ApprovalInvariant`, `ApprovalTheorems`, `ApprovalExclusion`, `ApprovalRegions`, `ApprovalProjection`, `ApprovalOutcomes` and
`ApprovalLimits` prove the theorems about whole runs, and where they stop; `ApprovalEffects` says case by case what an
undisturbed region of each operation makes of journal, record and helpers.

**The agent loop.** `Transcript` says what the provider accepts: every message with tool calls is followed at once by one
message with exactly their results. `Compaction`, `ToolBatch` and `AgentLoop` prove that nothing else is ever sent.

**Event frames.** `FrameParser` reads a helper's output as the pipe delivers it, and shows that the chunks do not matter.

**Stateful authorities.** `Companion` and `CompanionRuns` (check-ins), `BackgroundBroker` (bounded jobs), `FrameStore` (a leased
cache), `ControlAuthority` (fencing), `TreeBudget` (admission).

**Window searches.** `WindowSearch` proves two one-pass searches against the definition by all windows.
`Outcomes` and `Sequences` hold what the others share.

Methods on classes follow the program's own statements and are proved equal to a function of the old state; the theorems are
about those functions and about runs of them.

## What turned out not to hold

Each of these is kept in the model as the code has it, with the exact condition proved.

- A confirmed mail is checked before its receipt is cut to 2000 characters, so a long receipt can leave a journal nobody can
  read again. The journal stays readable exactly when the cut receipt still reads submitted
  (`ExecutionJournal.ConfirmMailSucceeded`, `LongReceiptBreaksReader`); the next recheck repairs a crash in between under the
  same condition (`ApprovalProjection.RecheckRepairs`). It is the one way in which a sequence of writer calls can leave an
  unreadable log (`JournalScripts.Script`).
- A rejection is not always final: sealing that crashed after arming, an undone claim and a rejection leave a journal a later
  recovery launches. With no helper alive it is final exactly when the journal gives a recovery nothing to act on: it is
  missing, torn or unreadable, or its attempt is spent (`ApprovalLimits.RejectionIsFinalIffNotReopenable`; both kinds are
  reachable, `HalfSealedRejectionIsReachable` and `TornRejectionIsReachable`).
- Mutual exclusion of Office helpers rests on recognizing a live owner: one blind recovery is enough to break it
  (`ApprovalLimits.BlindRecoveryOverlaps`), and then one helper's failure can be journalled for the other's attempt
  (`ApprovalEffects.BlindOutcomeIsAnothers`). At-most-once execution of other actions, and whose outcome their journal holds,
  do not rest on it.
- The last, tool-free call of a run stores the raw reply: the private truncation mark of a stray call stays in the history
  exactly when the reply carried one (`AgentLoop.Agent.Run`, `GraceSummary`; `MarkStays` does it). Every other path removes it.
- A lease of the token budget looks at its released flag before it takes the lock: two settlements that overlap count one
  child twice, whatever happens between them (`TreeBudget.OverlapBreaks`); without overlap nothing is lost
  (`TreeBudget.RunConserves`). It is a gap in the interface of the class: the calls in birkin/subagent.py exclude each other.
- After a clear, a reader of the frame cache that came before it can give back a later reader's lease, if a frame whose address
  was computed before the clear was published after it: exactly when a later reader holds the address
  (`FrameStore.StaleReturnCountsIffAlone`, `StaleReturnIsReachable`). Quota, byte count and current frame do not depend on it
  (`FrameStore.StoreStaysTidy`).
- A background submission whose receipt cannot be written keeps its slot for ever; the slot count says so exactly
  (`BackgroundBroker.SlotsAreConserved`).
- The span search's comment speaks of a window of `window` tokens; the code's window spans `window + 1` token positions, and
  so does the proof.

## Assumptions

Owner tokens are unique: the token of a helper is its launch index. A receipt's state is a function of its text, passed in as
`receipt`; SHA-256, canonical JSON and HMAC are parameters with the laws stated where they are used (injective, or decoding
what was encoded). What a recovery sees of the process table, of the mailbox and of durable receipts is an answer that comes
in from outside, any answer. Each durable write is one step; a crash can fall before, after or, for a journal line, inside it.
The model, the clock, the tools and the summarizer of the agent are oracles with any behaviour, except that a model's reply
holds no tool results. Dollar amounts are real numbers where the program has floats. Text given to `Companion`
is already stripped and its check-in times already parsed or refused.

## Model

| member | source | states |
|---|---|---|
| ApprovalTheorems.AtMostOnce | birkin/approval_execution_recovery.py:68-136 | in every run of claimers, recoverers, helpers and crashes, an action that is neither cron nor Office starts at most once; cron at most 1 plus its retryable failures; Office at most 1 plus its resumes; nothing starts without an armed journal; nothing is assumed about how well live owners are recognized |
| ApprovalTheorems.StartsAreCommitted | birkin/approval_execution_helper.py:133-181 | in every run the number of starts is bounded by the attempts the journal committed |
| ApprovalTheorems.MailHonesty | birkin/approval_execution_helper.py:184-192 | in every run a sealed mail send is approved or resume-pending only if somebody obtained a receipt that reads submitted |
| ApprovalTheorems.LogOnlyGrows | birkin/approval_execution_journal.py:262-303 | no step of any run removes or rewrites a journalled event |
| ApprovalTheorems.SuccessIsFinal | birkin/approval_execution_state.py:53-100 | once a run has journalled a success, nothing is appended after it, whatever follows |
| ApprovalTheorems.RecheckNeverSends | birkin/approval_execution_recovery.py:256-371 | a recheck spawns nothing and appends at most one event, the confirmed success, first of its writes, and only on an observed receipt that reads submitted |
| ApprovalTheorems.CommitsCoverTokens | birkin/approval_execution_journal.py:103-122 | a set of owner tokens that each committed is no larger than the number of commits in the log |
| ApprovalTheorems.Reachable | birkin/approval_execution_helper.py:41-130 | the protocol invariant holds after every run from a fresh record |
| ApprovalInvariant.StepKeeps | birkin/approval_execution.py:63-144 | every step of every participant, including deaths and failed or torn writes, keeps the invariant |
| ApprovalInvariant.PerformKeeps | birkin/approval_execution_journal.py:262-303 | one durable write that is legal for its region keeps the journal, the starts and every helper in good standing |
| ApprovalInvariant.InterruptKeeps | birkin/approval_execution_journal.py:262-303 | a write that was not done, done, or torn by a crash keeps them too |
| ApprovalLegality.LegalWriteKeepsGood | birkin/approval_execution_state.py:53-100 | a legal write leads from a structural, owner-bound, receipt-backed journal to another |
| ApprovalLegality.LegalConcat | birkin/approval_execution_recovery.py:57-221 | a region whose writes are legal can be followed by a further legal region |
| ApprovalLegality.RecoverLoadedLegal | birkin/approval_execution_recovery.py:68-143 | every branch of a recovery of a loaded journal writes only what the journal accepts |
| ApprovalLegality.MigrateLegal | birkin/approval_execution_recovery.py:387-418 | migrating a record without a journal writes only what the journal accepts |
| ApprovalLegality.SealLegal | birkin/approval_execution.py:72-118 | arming, readying and retrying before execution write only what the journal accepts |
| ApprovalLegality.RecheckLegal | birkin/approval_execution_recovery.py:224-378 | a recheck writes only what the journal accepts, unless a cut receipt no longer reads submitted |
| ApprovalLegality.PrepareLegal | birkin/approval_execution_helper.py:133-181 | a helper that prepares writes only what the journal accepts, and proceeds only with its own commit last |
| ApprovalLegality.OutcomeWritesLegal | birkin/approval_execution_helper.py:68-123 | whatever the action did, the outcome written is one the open attempt accepts |
| ApprovalExclusion.OneHelperInAttempt | birkin/approval_execution_recovery.py:98-133 | if recoveries see live owners exactly, no reachable state has two live helpers between commit and outcome, for every category and any number of resumes and retries; the open commit is that helper’s own |
| ApprovalExclusion.StaleHelperQuits | birkin/approval_execution_helper.py:147-180 | a helper that finds another token in the journal, or no open launch, quits and appends nothing |
| ApprovalExclusion.ExactStepKeeps | birkin/approval_execution_recovery.py:381-384 | every step that observes owners exactly keeps mutual exclusion |
| ApprovalExclusion.InterruptLeavesAttempt | birkin/approval_execution_journal.py:262-303 | a region that breaks off does not touch the log under somebody else’s open attempt |
| ApprovalExclusion.PrepareLeavesAttempt | birkin/approval_execution_helper.py:147-180 | while another helper’s attempt is open, a helper that prepares appends nothing |
| ApprovalProjection.WholeRunConverges | birkin/approval_execution_recovery.py:57-143 | over whole runs of a plain record without continuation: however the journal comes to its end, with its projection possibly still owed, and whatever helpers, recoveries, claims, undone claims, rejections, crashes and failed writes do after that, the journal stays as it is and the next undisturbed recovery gives the record the one status the journal determined; rechecks, edits and the freeze a recovery adds after a failed write (lines 151-158) are not among those steps |
| ApprovalProjection.ConvergesToTheJournal | birkin/approval_execution_helper.py:227-290 | the same from any state in which the journal is finished and the lock holder has only record writes left |
| ApprovalProjection.FinishedIsClosed | birkin/approval_execution_helper.py:58-123 | after the event that ends a journal, the region that wrote it appends and launches nothing more |
| ApprovalProjection.SeedIsKept | birkin/approval_execution_helper.py:265-285 | once seeded, the recheck state is changed by no such step |
| ApprovalProjection.StaysConverged | birkin/approval_execution_helper.py:227-290 | once such a journal is projected, no such step changes the status, the journal or a seeded recheck state; the freeze that a recovery adds, outside the lock, after one of its own writes failed is not among them |
| ApprovalProjection.RecoverySettles | birkin/approval_execution_recovery.py:137-143 | wherever an earlier projection crashed, one undisturbed recovery reaches the status the journal determines, approved or resume-pending for a success as a continuation was asked for |
| ApprovalProjection.RecoveryProjects | birkin/approval_execution_recovery.py:57-143 | such a recovery does one overwrite of the record and nothing else |
| ApprovalProjection.RecoveryIsIdempotent | birkin/approval_execution_helper.py:227-290 | recovering again changes nothing at all |
| ApprovalProjection.RecheckRepairs | birkin/approval_execution_recovery.py:251-295 | a crash between a mail’s confirmation and its projection is repaired by the next recheck, to approved or with a continuation to resume-pending, exactly when the receipt as stored still reads submitted |
| ApprovalLimits.RejectionIsFinalIffNotReopenable | birkin/approval_execution.py:246-271 | with no helper alive, a rejected action can still start exactly when its journal can be read and its attempt is unspent: armed, ready, launched, an open Office attempt, or a retryable cron failure whose record can be claimed and sealed again |
| ApprovalLimits.BarredNeverStarts | birkin/approval_execution_recovery.py:57-143 | from a missing, torn, unreadable or spent journal no run starts the action, whatever the record goes through |
| ApprovalLimits.ReopenableStarts | birkin/approval_execution_recovery.py:87-143 | from a journal that can be reopened some run of the protocol starts the action once more |
| ApprovalLimits.TornRejectionIsReachable | birkin/approval_execution.py:72-118 | a crash inside the first line leaves a journal, and a rejection that is final all the same |
| ApprovalLimits.HalfSealedRejectionIsReachable | birkin/approval_execution.py:180-191 | from a fresh record one crash, an undone claim and a rejection lead to such a journal |
| ApprovalLimits.NeverSealedNeverStarts | birkin/approval_execution.py:246-271 | a rejected record without a journal never starts, in any run |
| ApprovalLimits.BlindRecoveryOverlaps | birkin/approval_execution_recovery.py:98-111 | wherever an Office helper is acting, a recovery that does not see it leads to a second helper inside an attempt beside it |
| ApprovalRegions.RegionIsRun | birkin/store.py:95-151 | a region that is entered, writes and releases undisturbed is a run of the protocol |
| ExecutionState.SnapshotOf | birkin/approval_execution_state.py:40-120 | the loop over events returns exactly the replay of the log, or its first error |
| ExecutionState.ErrorPersists | birkin/approval_execution_state.py:63-100 | once a prefix is refused, every extension is refused with the same error |
| ExecutionLedger.AttemptsBalance | birkin/approval_execution_state.py:53-100 | in every accepted log commits equal outcomes plus Office resumes plus an attempt still open, and commits are bought by the first readiness, resumes and retries only |
| ExecutionLedger.ReopeningsByCategory | birkin/approval_execution_state.py:63-100 | resumes occur only in Office logs, retries only in cron logs, and no oftener than retryable failures |
| ExecutionLedger.AttemptBound | birkin/approval_execution_state.py:53-100 | the number of committed attempts per category |
| ExecutionLedger.TerminalAbsorbs | birkin/approval_execution_state.py:53-100 | nothing follows a success or a failure; only a final confirmed mail follows an unknown outcome; only a cron retry follows a retryable failure |
| ExecutionLedger.AcceptedIsStructural | birkin/approval_execution_state.py:63-100 | ignoring receipts only accepts more logs and never changes a phase |
| ExecutionJournal.AppendedReplay | birkin/approval_execution_state.py:63-100 | one more event replays to the next phase exactly when the transition is valid |
| ExecutionJournal.ExecutionJournal.Arm | birkin/approval_execution_journal.py:64-79 | succeeds exactly on a missing journal, and leaves one that reads armed with this authority |
| ExecutionJournal.ExecutionJournal.LoadSnapshot | birkin/approval_execution_journal.py:201-248 | answers the replay of the file, or why it cannot be read |
| ExecutionJournal.ExecutionJournal.Transition | birkin/approval_execution_journal.py:250-260 | appends exactly when the journal is in the expected phase, and then reads the intended one |
| ExecutionJournal.ExecutionJournal.MakeReady | birkin/approval_execution_journal.py:81-82 | exactly from armed to ready |
| ExecutionJournal.ExecutionJournal.StartHelper | birkin/approval_execution_journal.py:84-101 | exactly from ready or helper-started, and binds this owner |
| ExecutionJournal.ExecutionJournal.CommitAttempt | birkin/approval_execution_journal.py:103-122 | exactly from ready, or from a launch of this very token, and binds this owner |
| ExecutionJournal.ExecutionJournal.ResumeOffice | birkin/approval_execution_journal.py:124-131 | exactly from an open Office attempt back to ready |
| ExecutionJournal.ExecutionJournal.RetryCron | birkin/approval_execution_journal.py:133-140 | exactly from a retryable cron failure back to ready |
| ExecutionJournal.ExecutionJournal.Succeed | birkin/approval_execution_journal.py:142-147 | exactly from an open attempt; the stored result is the cut one |
| ExecutionJournal.ExecutionJournal.ConfirmMailSucceeded | birkin/approval_execution_journal.py:149-166 | exactly from an unknown mail outcome with a submitted receipt; the journal stays readable exactly when the cut receipt still reads submitted |
| ExecutionJournal.ExecutionJournal.Fail | birkin/approval_execution_journal.py:168-173 | exactly from an open attempt to failed |
| ExecutionJournal.ExecutionJournal.FailRetryably | birkin/approval_execution_journal.py:175-182 | exactly from an open cron attempt to retryable failure |
| ExecutionJournal.ExecutionJournal.RecordUnknown | birkin/approval_execution_journal.py:184-199 | exactly from an open attempt to outcome unknown |
| ExecutionJournal.LongReceiptBreaksReader | birkin/approval_execution_journal.py:149-166 | for every reader of receipts, every log that ends unknown and every receipt whose cut form is not submitted, no continuation of the log can be read after the confirmation |
| ExecutionJournal.LongReceiptIsAccepted | birkin/approval_execution_journal.py:149-166 | the writer does accept such a receipt, one character over the limit |
| JournalScripts.Script | birkin/approval_execution_journal.py:64-199 | any sequence of writer calls leaves a log the reader accepts, in the phase the last accepted call was for, with the attempts of its category; the one condition is that confirmed receipts survive the cut |
| JournalScripts.Perform | birkin/approval_execution_journal.py:64-199 | one call keeps the log readable and only extends it |
| JournalOnDisk.ReadersAgree | birkin/approval_execution_journal.py:201-248 | reading the text and replaying the events give the same snapshot, or both none |
| JournalOnDisk.CrashIsAFault | birkin/approval_execution_journal.py:262-303 | an append cut off anywhere leaves the old journal, the new one or a torn one, also when the file was only just created |
| JournalOnDisk.Append | birkin/approval_execution_journal.py:262-303 | the writer extends whatever stands on disk by the event, and leaves a torn file alone |
| ExecutionJournal.ShortReceiptStaysReadable | birkin/approval_execution_journal.py:149-166 | within the limit a confirmed mail always reads succeeded |
| JournalFile.Load | birkin/approval_execution_journal.py:201-248 | the one pass over the lines accepts exactly the chained, numbered, sealed logs and reports the first fault |
| JournalFile.CheckLine | birkin/approval_execution_journal.py:215-243 | a line is accepted exactly when version, number, approval, previous digest and own digest agree |
| JournalFile.Append | birkin/approval_execution_journal.py:262-303 | looking at the last line only, extends every readable file by the next chained entry, and refuses a torn one |
| JournalFile.AppendVerifies | birkin/approval_execution_journal.py:262-303 | a readable file with the appended line is readable and holds one entry more |
| JournalFile.CrashAtomicity | birkin/approval_execution_journal.py:262-303 | for every prefix of an appended line that reached the disk, the reader finds the old journal, the new one or a torn line |
| JournalFile.CrashedSnapshot | birkin/approval_execution_journal.py:201-248 | after such a crash a snapshot is the old one or the new one |
| JournalFile.TailDigestPinsLog | birkin/approval_execution_journal.py:201-248 | two logs of one approval that verify and end in the same digest are equal, for an injective digest |
| JournalFile.LinesAppend | birkin/approval_execution_journal.py:201-248 | a line without a raw newline adds one line to the file, whatever came before |
| ApprovalExecution.Approval.Claim | birkin/approval_execution.py:27-60 | under the lock, writes exactly the claim of the record it found |
| ApprovalExecution.Approval.RestoreClaim | birkin/approval_execution.py:180-191 | writes exactly the undoing of a claim |
| ApprovalExecution.Approval.Reject | birkin/approval_execution.py:246-271 | writes exactly the rejection of a pending record |
| ApprovalExecution.Approval.Seal | birkin/approval_execution.py:72-118 | writes exactly the journal opening, retry or refusal that the record and journal call for, in order |
| ApprovalExecution.Approval.ArmAndReady | birkin/approval_execution.py:109-115 | on a missing journal appends armed and ready, and nothing else |
| ApprovalExecution.Approval.LaunchHelper | birkin/approval_execution_process.py:15-46 | spawns, then binds token and process, and leaves the journal helper-started |
| ApprovalExecution.Approval.ProjectTerminal | birkin/approval_execution_helper.py:227-290 | writes exactly the projection the finished journal determines, without touching the journal |
| ApprovalExecution.Approval.RecordResult | birkin/approval_execution_helper.py:184-192 | appends a success, or an unknown outcome for a mail that is not submitted |
| ApprovalExecution.Approval.RecoverMail | birkin/approval_execution_recovery.py:112-127 | settles a mail attempt whose owner is gone by what was observed |
| ApprovalExecution.Approval.ResumeAttempt | birkin/approval_execution_recovery.py:98-133 | resumes an Office attempt, settles a mail, or declares the outcome unknown |
| ApprovalExecution.Approval.RecoverJournal | birkin/approval_execution_recovery.py:68-143 | per phase, writes exactly the recovery plan |
| ApprovalExecution.Approval.SettleLegacy | birkin/approval_execution_recovery.py:387-418 | commits a local attempt and settles it by what the old receipt proves |
| ApprovalExecution.Approval.MigrateLegacy | birkin/approval_execution_recovery.py:387-418 | gives a record of an older version a journal and recovers from there, write by write |
| ApprovalExecution.Approval.RecoverOne | birkin/approval_execution_recovery.py:57-145 | leaves a frozen record alone, migrates a record without journal, recovers the rest, each by the writes whose effect `ApprovalEffects` states case by case |
| ApprovalExecution.Approval.RecheckUnknownMail | birkin/approval_execution_recovery.py:224-378 | writes exactly the recheck plan |
| ApprovalExecution.Approval.ConfirmMail | birkin/approval_execution_recovery.py:330-352 | journals the confirmation, projects it if the journal is still readable, and stamps the record |
| ApprovalExecution.Approval.PrepareLocked | birkin/approval_execution_helper.py:133-181 | lets the helper proceed exactly when the attempt is committed under its own token, and writes exactly that |
| ApprovalExecution.Approval.BindAndCommit | birkin/approval_execution_helper.py:150-180 | binds a launched helper to its process and commits its attempt |
| ApprovalExecution.Approval.RecordOutcome | birkin/approval_execution_helper.py:68-123 | writes exactly the outcome of the action, or nothing when the journal has moved on; `ApprovalEffects` and `ApprovalOutcomes` state what that says of the action |
| ApprovalExecution.Approval.ConcludeOverwrite | birkin/approval_execution_helper.py:76-106 | an existing output queues its follow-up before the failure is journalled |
| AgentLoop.Agent.Run | birkin/agent.py:246-321 | from a well paired history to a well paired one; everything sent in between was well paired and ended with the user; nothing cut off was executed; guards are restored; private marks are left exactly when a last, tool-free reply carried one; and if anything is sent, the first request ends in a turn of the user’s that holds the request, with what was queued and typed before it on a trusted turn |
| AgentLoop.Agent.Loop | birkin/agent.py:384-502 | the same over all turns, through aborts, failures and the last call: what the history asked when the loop began, the first request asks |
| AgentLoop.MarkStays | birkin/agent.py:693-703 | a run that does leave a private mark in the history |
| AgentLoop.Agent.Turn | birkin/agent.py:398-422 | a turn is entered and, unless it ends the run, left with a history fit to be sent; an abort sends nothing; otherwise what was steered goes in front, and the reply is taken in behind what was sent |
| AgentLoop.Agent.Digest | birkin/agent.py:421-493 | an abort during the reply or a reply without calls ends the run with every call answered; otherwise all calls run; the reply is stored without marks either way |
| AgentLoop.Agent.ExecuteReply | birkin/agent.py:467-493 | stores the reply without private marks and one result per call, in order |
| AgentLoop.Agent.AnswerReply | birkin/agent.py:424-493 | cut-off calls are refused, the others run, and the results come back in the order of the calls |
| AgentLoop.Agent.InterleaveAnswers | birkin/agent.py:479-487 | results of the calls that ran go back between the refusals of those that did not |
| AgentLoop.Agent.Close | birkin/agent.py:440-461 | a last reply is stored with one refusal per call; the history is free of private marks exactly when what was stored is |
| AgentLoop.Agent.GraceSummary | birkin/agent.py:673-705 | skipped or failed it leaves the history as it was; otherwise the raw reply is stored behind what was sent, its stray calls are refused, and the history is free of private marks exactly when the reply was |
| AgentLoop.Agent.Complete | birkin/agent.py:359-382 | every request of the retry loop is fit to be sent, at most the allowed number is sent, the history only ever shrinks by compactions, its last turn is what every request ends with, and an overflow is given up only when the retries are used up or there is nothing to compact |
| AgentLoop.Agent.MakeRoom | birkin/agent.py:359-382 | after an overflow says again exactly if the bounded number is not used up and there was something to compact |
| AgentLoop.Agent.CompactNow | birkin/agent.py:329-357 | compacts exactly if the history has grown since there was last nothing to do and there is something to compact |
| AgentLoop.Agent.RunOne | birkin/agent.py:512-530 | one result block that answers this call: what the tool said, why it raised, or that it is blocked |
| AgentLoop.Agent.RunSequential | birkin/agent.py:554-571 | one result per call in order, each from its own tool; after an abort the rest are refused |
| AgentLoop.Agent.RunParallel | birkin/agent.py:610-671 | whatever order the slots finish in, and whichever never do, one result per call in order, each from its own tool |
| AgentLoop.Agent.RunTools | birkin/agent.py:532-571 | over all planned segments, one result per call in emission order, each from its own tool |
| AgentLoop.Agent.Steer | birkin/agent.py:220-232 | accepts non-blank text and queues it, on a line of its own, behind what is queued |
| AgentLoop.Agent.DrainSteer | birkin/agent.py:234-237 | hands over everything queued and typed since, in order, and leaves nothing queued |
| AgentLoop.Agent.OpenRequest | birkin/agent.py:259-263 | a request opens a user turn of its own |
| AgentLoop.Agent.AddUserText | birkin/agent.py:63-76 | steered text folds into a trailing user turn or opens one, and the history stays fit to be sent |
| Transcript.PairingMeans | birkin/agent.py:384-502 | what well paired means: results follow at once, are exactly the calls in order, and there are no others |
| Transcript.UserTextSendable | birkin/agent.py:63-76 | adding user text to a well paired history leaves one that can be sent |
| Transcript.AlignedConcat | birkin/compaction.py:230-281 | a paired history followed by an aligned one is aligned |
| Transcript.AlignedSuffix | birkin/compaction.py:143-152 | a suffix whose first message answers nothing is aligned by itself |
| Transcript.AlignedAppend | birkin/agent.py:421-493 | one more message is aligned exactly on what the history leaves open |
| AgentLoop.AnsweredSendable | birkin/agent.py:421-493 | a reply and the answers to its calls extend a paired history to one that can be sent |
| ToolBatch.GroupRuns | birkin/parallel.py:43-78 | runs keep every call in order and alternate in kind |
| ToolBatch.PlanSegments | birkin/parallel.py:43-78 | every call is planned once in order; a concurrent run holds at least two calls and only eligible ones; no two sequential runs are neighbours, and no two eligible calls side by side go one after the other |
| Compaction.SafeHeadEnd | birkin/compaction.py:131-140 | the head ends after no open call |
| Compaction.SafeTailStart | birkin/compaction.py:143-152 | the first message from here on that carries no result |
| Compaction.FindTailStart | birkin/compaction.py:155-166 | where the tail that fits the budget begins |
| Compaction.MergeSameRole | birkin/compaction.py:169-183 | the loop computes the merge |
| Compaction.MergeKeepsStream | birkin/compaction.py:169-183 | merging loses, adds and reorders nothing |
| Compaction.MergeAlternates | birkin/compaction.py:169-183 | merging never lengthens and leaves no two neighbours that could be merged |
| Compaction.MergeKeepsPairing | birkin/compaction.py:169-183 | merging an aligned history keeps it aligned, with the same calls open and the same party last |
| Compaction.TailIsNotEmpty | birkin/compaction.py:230-281 | in a paired history the kept tail is never empty |
| Compaction.RebuiltPaired | birkin/compaction.py:230-281 | head, summary and tail of a paired history are paired and shorter |
| Compaction.Compact | birkin/compaction.py:230-281 | replaces the history exactly if its one cut leaves a middle of two messages and there is a summary; then it is, block by block, the head, one user text that holds the summary between its two marks, and a tail that is never empty, paired and strictly shorter if the input was paired |
| FrameParser.ConsumeHelperStdout | birkin/approval_execution_events.py:61-92 | the loop reports and keeps exactly what the parse of the buffer says |
| FrameParser.DrainHelperStdout | birkin/approval_execution_events.py:46-58 | over all chunks and the final flush, exactly the drained reports |
| FrameParser.PartialPrefixLength | birkin/approval_execution_events.py:119-124 | the longest proper prefix of the marker that the buffer ends in |
| FrameParser.LongestPartialMeans | birkin/approval_execution_events.py:119-124 | that length is attained, and no longer one is |
| FrameParser.FindMeans | birkin/approval_execution_events.py:69-71 | the first occurrence of the marker |
| FrameParser.ParseSplits | birkin/approval_execution_events.py:61-92 | parsing a chunk and keeping the suffix loses nothing of the rest of the stream |
| FrameParser.ChunksDoNotMatter | birkin/approval_execution_events.py:46-58 | for every stream and every way of cutting it, the same frames in the same places among the same stray bytes as one final look at the whole |
| FrameParser.NothingIsLost | birkin/approval_execution_events.py:61-92 | dispatched frames, logged bytes and a dropped tail are the stream, byte for byte |
| FrameParser.EventsComeBack | birkin/approval_execution_events.py:15-33 | events written between marker-free output all come back, in order and whole, however the pipe cuts the stream |
| FrameParser.MarkersDoNotOverlap | birkin/approval_execution_events.py:12-12 | two markers cannot overlap |
| CompanionRuns.OneStreamPerChat | birkin/companion.py:500-512 | in every run at most one commitment of a chat is active or snoozed |
| CompanionRuns.ClosedIsFinal | birkin/companion.py:41-49 | a done or stopped commitment keeps its status in every run, or is deleted for ever |
| CompanionRuns.StatusesFollowTheTable | birkin/companion.py:41-55 | every status change of every operation is an edge of the transition table |
| CompanionRuns.RepeatedAnswerChangesNothing | birkin/companion.py:807-845 | until a new check-in opens, the identical answer changes nothing and any other is refused, whatever happens in between |
| CompanionRuns.AcceptedAnswerIsRecorded | birkin/companion.py:820-845 | an accepted answer is recorded under its action |
| CompanionRuns.AskedAtMostOncePer200 | birkin/companion.py:243-247 | in every run two winning claims of one key have at least 200 other wins between them, and the ledger never holds a key twice |
| CompanionRuns.StepKeepsLedger | birkin/companion.py:686-746 | every operation keeps the ledger: wins in order, the last 200 of them remembered unless their commitment is gone |
| CompanionRuns.WinIsRemembered | birkin/companion.py:243-247 | the trim never drops one of the last 200 wins |
| CompanionRuns.DeletionKeepsLists | birkin/companion.py:544-569 | a deletion takes out exactly its own entries |
| Companion.Store.Activate | birkin/companion.py:436-464 | exactly the specified state or refusal, including the free-slot rule |
| Companion.Store.RequireFreeSlot | birkin/companion.py:500-512 | the scan answers whether no other commitment of the chat is pending |
| Companion.Store.Answer | birkin/companion.py:793-852 | exactly the specified state, repeat or refusal |
| Companion.Store.Reschedule | birkin/companion.py:855-885 | exactly the specified state or refusal |
| Companion.Store.ClaimCheckin | birkin/companion.py:686-746 | exactly the specified state, and the key if this caller won; the caller wins exactly if everything holds that `MayAsk` lists |
| Companion.Store.Delete | birkin/companion.py:544-563 | removes the commitment and its ledger entries |
| Companion.Store.AddCandidate | birkin/companion.py:406-433 | a candidate, or why there is none |
| Companion.Store.Correct | birkin/companion.py:515-541 | a new revision of the record |
| Companion.Store.RecordDelivery | birkin/companion.py:780-788 | the message id of an open check-in |
| Companion.Store.Save | birkin/companion.py:243-247 | keeps the newest 200 ledger entries |
| Companion.Store.BindContext | birkin/companion.py:306-331 | binds a private chat, and no other |
| Companion.Store.SetPolicy | birkin/companion.py:371-392 | a new policy under the next version |
| BackgroundBroker.StartsAtMostOnce | birkin/background.py:172-229 | over every interleaving each task starts at most once and only terminal jobs are announced |
| BackgroundBroker.CancelledNeverStarts | birkin/background.py:139-150 | a cancelled job never starts, and an announced job never changes again |
| BackgroundBroker.SlotsAreConserved | birkin/background.py:107-124 | free slots, jobs not yet released and submissions that failed always make up the workers, so a release never exceeds the bound |
| BackgroundBroker.NothingIsLeftBehind | birkin/background.py:152-183 | once every worker has left, every job that reached the queue is over, and announced unless cancelled |
| BackgroundBroker.EveryWorkerIsStopped | birkin/background.py:152-172 | with all stops put and the queue drained, every worker has left |
| BackgroundBroker.StepKeeps | birkin/background.py:168-232 | every step keeps each job in at most one place, with a status that fits it |
| BackgroundBroker.StepCounts | birkin/background.py:107-183 | every step keeps the slot count and the stops behind all jobs |
| BackgroundBroker.Broker.Submit | birkin/background.py:107-124 | exactly the specified region, including a receipt that cannot be written |
| BackgroundBroker.Broker.Cancel | birkin/background.py:139-150 | only a queued job, exactly as specified |
| BackgroundBroker.Broker.Close | birkin/background.py:152-170 | cancels exactly the queued jobs and sends the stops once; stuck on a receipt that cannot be written, exactly the jobs up to there, and no stop |
| BackgroundBroker.Broker.CancelAll | birkin/background.py:156-166 | the loop over the queued jobs, in order |
| BackgroundBroker.Broker.WorkerLooks | birkin/background.py:179-182 | drops a cancelled job, goes on with any other |
| BackgroundBroker.Broker.WorkerBegins | birkin/background.py:187-194 | looks again, and marks the job running |
| BackgroundBroker.Broker.WorkerRecords | birkin/background.py:202-218 | records how the task ended |
| BackgroundBroker.Broker.WorkerFails | birkin/background.py:219-224 | marks a job failed whose receipt could not be written |
| BackgroundBroker.Broker.WorkerAnnounces | birkin/background.py:225-226 | announces the job |
| FrameStore.EvictionSparesTheProtected | birkin/browser_aside_store.py:143-160 | eviction never removes a leased or current frame, keeps the byte count right even when it fails, and finds room exactly when the protected frames leave it |
| FrameStore.PublicationKeeps | birkin/browser_aside_store.py:82-110 | the quota and the count are kept, the current frame is stored; after a success it is this content; a new frame is admitted exactly when the protected frames leave room |
| FrameStore.StoreStaysTidy | birkin/browser_aside_store.py:51-160 | after any steps at all the bytes are counted right and within the quota, addresses are distinct and the current frame is stored |
| FrameStore.HeldFramesStay | birkin/browser_aside_store.py:119-134 | in every run that does not publish at an address held from before a clear, the counter counts the readers and what they hold stays stored |
| FrameStore.StaleReturnCountsIffAlone | birkin/browser_aside_store.py:127-134 | a return from before a clear keeps the count right if and only if no later reader holds the address |
| FrameStore.StaleReturnUnprotects | birkin/browser_aside_store.py:119-134 | a reader from before a clear, on leaving, gives back a later reader’s lease of the same address |
| FrameStore.StaleReturnIsReachable | birkin/browser_aside_store.py:56-70 | a frame published before and after a clear at one address, with a reader on either side of it, gets there |
| FrameStore.BrowserFrameStore.EvictFor | birkin/browser_aside_store.py:143-160 | the loop evicts exactly the specified frames |
| FrameStore.BrowserFrameStore.PublishLocked | birkin/browser_aside_store.py:82-110 | exactly the specified publication |
| FrameStore.BrowserFrameStore.Publish | birkin/browser_aside_store.py:51-54 | too large a frame changes nothing; otherwise the publication at its address |
| FrameStore.BrowserFrameStore.Lease | birkin/browser_aside_store.py:119-126 | counts a reader of a stored frame and hands it over, or refuses |
| FrameStore.BrowserFrameStore.Return | birkin/browser_aside_store.py:127-134 | counts the reader out and drops an empty count |
| ControlAuthority.CommandsAreFenced | birkin/browser_aside_control.py:55-164 | over every run, with any clock, accepted sequenced commands increase in (epoch, sequence) and an epoch belongs to one actor |
| ControlAuthority.StepKeepsGuard | birkin/browser_aside_control.py:55-164 | every call keeps the fence |
| ControlAuthority.AcceptedIsRecorded | birkin/browser_aside_control.py:91-119 | every accepted sequenced command is one of the fenced ones |
| ControlAuthority.BrowserControlAuthority.Acquire | birkin/browser_aside_control.py:55-89 | refreshes the owner’s lease, refuses others, or grants the next epoch |
| ControlAuthority.BrowserControlAuthority.Authorize | birkin/browser_aside_control.py:91-119 | lets through exactly the live owner’s command with a fresh sequence |
| ControlAuthority.BrowserControlAuthority.Release | birkin/browser_aside_control.py:121-125 | an authorized release drops the lease |
| ControlAuthority.BrowserControlAuthority.Handoff | birkin/browser_aside_control.py:131-157 | grants the next epoch to the successor |
| TreeBudget.RunConserves | birkin/budget.py:31-120 | over every run in which no two settlements of a lease overlap, reserved is the live leases plus what was settled since the tree began, and active is their number |
| TreeBudget.OverlapBreaks | birkin/budget.py:31-42 | of two settlements that both looked at a live lease first, the second leaves the ledger one child short, whatever is done in between |
| TreeBudget.OverlapIsReachable | birkin/budget.py:31-42 | one child settled by two threads that both looked first leaves minus one active |
| TreeBudget.AdmittedFits | birkin/budget.py:88-120 | whatever is admitted fits under every cap, leases of earlier trees included |
| TreeBudget.Budget.Reserve | birkin/budget.py:88-120 | exactly the specified admission or refusal, and a fresh lease |
| TreeBudget.Budget.BeginTree | birkin/budget.py:71-86 | restarts the counters from the sums over the live leases |
| TreeBudget.Lease.Settle | birkin/budget.py:31-45 | settles once; a released lease changes nothing |
| WindowSearch.SpanBonus | benchmarks/bench_ranking_v2.py:128-148 | the one-pass search returns the best value of any window of the text, or zero when no window holds two query terms |
| WindowSearch.LastHit | benchmarks/bench_ranking_v2.py:138-147 | every window holds no more terms than the one that ends at its last hit |
| WindowSearch.WindowOfHit | benchmarks/bench_ranking_v2.py:138-147 | the counted stretch of hits holds exactly the query terms of its window |
| WindowSearch.BestWindow | benchmarks/bench_token_diet.py:61-70 | the largest number of occurrences in any closed interval of the window’s length, and the first occurrence that starts one |
| WindowSearch.Densest | benchmarks/bench_token_diet.py:61-70 | a longest run of positions, the first of its length, is a densest window, and the first |
| ApprovalOutcomes.OutcomesAreTrue | birkin/approval_execution_helper.py:68-123 | in every run a failure is journalled only for an action that was started, ended and did not return, with the text it ended with, and a success only for one that returned, with its result cut, or for a mail, or on an old receipt; only a mail is unknown with a reason; unless the attempt can be resumed, the action is that of the very helper that committed it |
| ApprovalOutcomes.ExactOutcomesAreTrue | birkin/approval_execution_recovery.py:98-133 | where recoveries see live owners exactly, an outcome is that of the committing helper for Office attempts too |
| ApprovalOutcomes.OutcomeEventIff | birkin/approval_execution_helper.py:68-123 | the recorded event is the one the table of outcomes names, event by event, and none is recorded exactly for a resumable document error |
| ApprovalOutcomes.StepTold | birkin/approval_execution_helper.py:58-130 | every step keeps the account of who may journal which outcome: nobody but the recorder of an ended action appends a failure |
| ApprovalOutcomes.StepKept | birkin/approval_execution_helper.py:133-181 | every step keeps the last attempt of a journal that cannot be resumed with whoever is inside it |
| ApprovalOutcomes.HelpersActOnSealedAuthority | birkin/approval_execution_helper.py:140-146 | in every run a helper that is let through, acts or has acted was given a record that carried the authority its journal sealed |
| ApprovalOutcomes.RecoverLoadedUnprompted | birkin/approval_execution_recovery.py:87-143 | no branch of a recovery journals a failure, or a success that no mailbox confirmed |
| ApprovalEffects.DeadAttemptIsUnknown | birkin/approval_execution_recovery.py:134-136 | one undisturbed recovery of an attempt that is neither mail nor Office and lost its owner adds an unknown outcome without a reason, leaves the record unconfirmed and launches nothing |
| ApprovalEffects.DeadMailIsAsked | birkin/approval_execution_recovery.py:112-127 | a mail that lost its owner is settled by what its mailbox says: a submitted receipt is a success, any other is noted as unknown, and so is silence |
| ApprovalEffects.DeadOfficeIsResumed | birkin/approval_execution_recovery.py:128-133 | an Office attempt that lost its owner is made ready again and a fresh helper is bound to it |
| ApprovalEffects.UnstartedIsLaunched | birkin/approval_execution_recovery.py:93-107 | an armed, ready or orphaned launch gets one helper, from armed after it was made ready |
| ApprovalEffects.LiveIsLeftAlone | birkin/approval_execution_recovery.py:98-111 | while its owner lives a recovery changes nothing |
| ApprovalEffects.FinishedIsReflected | birkin/approval_execution_helper.py:227-290 | a finished journal stays as it is and the record reflects it, field by field, for every category |
| ApprovalEffects.DoubtfulIsFrozen | birkin/approval_execution_recovery.py:68-92 | an unreadable journal or one of another authority freezes the record and nothing else |
| ApprovalEffects.MissingIsMigrated | birkin/approval_execution_recovery.py:387-418 | without a journal a claim is undone, and an execution is journalled under nobody’s name with what its old receipt proves |
| ApprovalEffects.BoundHelperCommits | birkin/approval_execution_helper.py:147-181 | a helper whose launch the journal waits for commits in its own name and is let through with the sealed category |
| ApprovalEffects.OtherHelperIsTurnedAway | birkin/approval_execution_helper.py:140-172 | every other helper exits without a trace in the journal; a record of another authority is frozen, a finished journal is reflected |
| ApprovalEffects.ReturnIsRecorded | birkin/approval_execution_helper.py:124-130 | what returned leaves a success with its result cut, but a mail that was not submitted leaves an unknown outcome |
| ApprovalEffects.FailureIsRecorded | birkin/approval_execution_helper.py:68-74 | what raised leaves a failure with its text, but a cron job that found its store busy a retryable one and a pending record |
| ApprovalEffects.DocumentErrorIsRecorded | birkin/approval_execution_helper.py:75-112 | a document error leaves the attempt open exactly if it can be resumed, and else a failure, with the follow-up question noted if an output is in the way |
| ApprovalEffects.LateOutcomeIsDropped | birkin/approval_execution_helper.py:68-123 | an outcome for an attempt that is no longer open leaves the journal alone |
| ApprovalEffects.ClaimsAndRejections | birkin/approval_execution.py:27-60 | claim, undoing and rejection move exactly the records they should, and only the status |
| ApprovalEffects.SealingLeaves | birkin/approval_execution.py:72-118 | what sealing adds to the journal and makes of the record, case by case |
| ApprovalEffects.ResumptionLeaves | birkin/approval_execution.py:148-161 | a delivered action with a continuation is marked before one continuation is dispatched |
| ApprovalEffects.RecheckAsksAgain | birkin/approval_execution_recovery.py:297-371 | a recheck journals only a submitted receipt, as a success, and notes every other answer on the record |
| ApprovalEffects.RecheckElsewhere | birkin/approval_execution_recovery.py:224-278 | a recheck with nothing to ask leaves journal and helpers alone, and freezes a record whose journal is doubtful |
| ApprovalEffects.DeliveredIsStamped | birkin/approval_execution_recovery.py:256-295 | a delivered mail is stamped and keeps the time of its first confirmation |
| ApprovalEffects.BlindOutcomeIsAnothers | birkin/approval_execution_recovery.py:98-133 | after a recovery that does not see an acting Office helper, that helper’s failure can be journalled for the other’s attempt, which has not ended |
| ExecutionState.NextEvents | birkin/approval_execution_state.py:53-100 | phase by phase, exactly which events may follow |
| JournalFile.LoadedIff | birkin/approval_execution_journal.py:201-248 | a text is read as these entries exactly if it ends in a newline and every line decodes to the entry that belongs there: version, number, approval, digest of the entry before, own digest |
| JournalFile.LinesRejoin | birkin/approval_execution_journal.py:201-248 | the lines are the text cut at its newlines and nowhere else |
| FrameParser.DrainedIsTheFraming | birkin/approval_execution_events.py:46-92 | however the stream is cut, what comes of it is the one framing of the whole: a frame from a marker to the next newline, a cut frame if there is none, and a stray byte where no marker starts |
| FrameParser.FramingIsUnique | birkin/approval_execution_events.py:61-92 | a stream can be framed in one way only |
| Compaction.RebuiltStream | birkin/compaction.py:278-281 | block by block, the rebuilt history is the head, one user text that holds the summary between its two marks, and the tail |
| Compaction.CutIsUnique | birkin/compaction.py:131-166 | a history is cut in one way only |
| Compaction.DescendsFit | birkin/compaction.py:230-281 | after any number of compactions a history is still paired, shorter by as many messages, and its last turn ends as before |
| AgentLoop.Agent.TakeRequest | birkin/agent.py:259-264 | adds one user turn: the user’s text, and on a trusted turn behind it all that was queued and typed before it |
| AgentLoop.Agent.DeliverSteer | birkin/agent.py:408-415 | on a trusted turn what was queued and typed is added, whole and in order, as user text; otherwise nothing |
| AgentLoop.Agent.Converse | birkin/agent.py:420-493 | everything sent in a turn ends with the last turn of the history, and the last reply is taken in behind what was sent |
| Companion.ClaimWinsIff | birkin/companion.py:615-669 | a claim wins exactly if contact is on and the commitment is pending, sourced, bound to one user who allows it, scheduled under this policy, due, not too late, not open, not ignored three times, outside quiet hours, within the limits unless it was put off, and its key is not in the ledger |
| Companion.WinOpensCheckin | birkin/companion.py:727-740 | a win opens the check-in, enters its key and changes nothing else |
| Companion.StaleClaimIsRestamped | birkin/companion.py:708-712 | a commitment of an older policy is taken over by the one in force |
| Companion.LateClaimIsMissed | birkin/companion.py:762-777 | a check-in that is too late is missed, unless one that was sent can still be answered |
| Companion.OpenClaimAges | birkin/companion.py:749-760 | an open check-in is closed and counted as ignored once it has aged out |
| Companion.OtherwiseSilent | birkin/companion.py:686-723 | every other lost claim changes nothing |
| Companion.LimitsAreKept | birkin/companion.py:593-612 | the daily count is the number of ledger entries of the local day, and the cooldown holds against every entry |
| Companion.ActivatedIsAsked | birkin/companion.py:436-464 | an activated commitment is asked at its time, exactly if the rest allows it |
| Companion.RescheduledIsAsked | birkin/companion.py:855-885 | so is a rescheduled one |
| Companion.SnoozedIsAsked | birkin/companion.py:629-631 | a check-in put off is asked again at its time, whatever the limits, and earlier silence is forgiven |
| Companion.SnoozeLasts | birkin/companion.py:820-845 | how long putting off lasts, and that it ends behind a quiet window |
| Companion.ActivatedIff | birkin/companion.py:436-464 | exactly when a commitment can be activated |
| Companion.RescheduledIff | birkin/companion.py:855-885 | exactly when one can be rescheduled |
| Companion.AnsweredIff | birkin/companion.py:807-845 | exactly which answers a check-in not answered yet takes in which status |
| Companion.AnswerIsStored | birkin/companion.py:820-845 | what an accepted answer makes of the record |
| Companion.ProposedIff | birkin/companion.py:406-433 | exactly when a candidate is taken, and what it starts as |
| CompanionRuns.WinsWereDue | birkin/companion.py:686-746 | in every run each win was taken in a state in which everything held that must |
| CompanionRuns.ContactIsOptIn | birkin/companion.py:624-625 | in every run that starts with contact off there is a win only if somebody turned it on |
| BackgroundBroker.ReportsAreTrue | birkin/background.py:185-232 | over every interleaving a job reads succeeded only if its task was called once and returned, and failed only if it was called once and raised, or a receipt could not be written |
| FrameStore.EvictionIsOldestFirst | birkin/browser_aside_store.py:143-160 | eviction takes exactly the oldest frames that may go, not one more than makes room, and fails only with none left |
| FrameStore.PublishedIff | birkin/browser_aside_store.py:82-110 | exactly when a publication is new, known, refused for another content or refused for room |
| ControlAuthority.AuthorizedIff | birkin/browser_aside_control.py:91-119 | a command is taken exactly from the owner of the lease in force, under its epoch and with a new number |
| ControlAuthority.AcquiredIff | birkin/browser_aside_control.py:55-89 | control is granted exactly when nobody else has it, under a new epoch unless it is renewed |
| ControlAuthority.GivenUpIff | birkin/browser_aside_control.py:121-157 | only the owner gives control up or hands it on |
| TreeBudget.ReservedIff | birkin/budget.py:88-120 | a child is admitted exactly if it asks for every capped resource, is in time, and every cap leaves room |
| TreeBudget.SettledMeans | birkin/budget.py:31-45 | settling gives back what was reserved and takes what was reported, or all of it without a report |

## Left out

- recover_all (birkin/approval_execution_recovery.py:38-54) calls `recover_one` per record; the protocol models one record with any number of recoveries.
- The injected executor (birkin/approval_execution_injected.py), a test seam, and the fan-out to the actions themselves: an action is one step with any outcome.
- The action receipt file is modelled only as the answer a migration gets; the wording of errors, failure codes and titles is not modelled.
- File locks, fsync, process spawning, private-file modes, SHA-256, HMAC and JSON: atomic steps, and parameters with stated laws.
- The journal's text is a sequence of characters, one character a byte; a torn multi-byte character is a torn line.
- Store-busy time-outs of the file lock, which change nothing durable.
- ApprovalProjection.StaysConverged: leaves out manual rechecks, edits of the record and the freeze after a failed write (birkin/approval_execution_recovery.py:151-158), which are meant to move the record, and cron, Office and continued records, whose finished journals are projected on purpose to a status that runs again.
- ApprovalProjection.WholeRunConverges: the same steps and records are left out; `RecoverySettles` and `RecheckRepairs` do cover records with a continuation.
- Stamping a confirmed mail reads the status and writes it back under the lock (birkin/approval_execution_recovery.py:277-288, 335-347); the model does both in one step, so a continuation that ends, or a freeze, between the two is not separated from it.
- ApprovalTheorems.AtMostOnce: bounds Office actions by their resumes only, because a resume runs the action again by design.
- AgentLoop.Agent.RunParallel: workers are an oracle for the order in which slots finish and for those that never do; threads, time-outs and cancellation are not modelled.
- AgentLoop.Agent.Loop: the returned text, and the notices the program appends to it after an abort, a cut-off reply or the last turn, are not specified; what is sent and stored is.
- Token estimation, nudges, hooks, lineage snapshots, OODA notes, blocked-tool filtering of specifications and streaming callbacks of the agent loop.
- Compaction.Compact: the checkpoint written before it is not modelled; any summary text is allowed. The long fixed texts of the program, such as the preamble of a summary and the loop's notices, are abridged to their first words.
- FrameParser dispatches payloads; decoding their JSON and calling the observer, neither of which touches the buffer, are not modelled.
- Companion: wording of receipts, the event log, `zoneinfo`, and the lists shown to the user; quiet hours and local days are a calendar passed in, so the daily cap and the cooldown are proved for each claim against the ledger as it stands, and not over runs, since a deletion erases entries they count.
- Background tasks that raise something other than an ordinary exception, progress messages and the receipts' contents.
- FrameStore: two contents with one address are refused as in the code; that an HMAC makes this rare is not stated.
- Window searches: finding the positions of the terms, lower-casing, sorting and cutting the snippet; BM25 scoring and the rest of the benchmarks.
- Browser sockets and Playwright, Windows job objects, OAuth, model sessions, git-backed checkpoints and the command line.
- Small validators and monotone scores: easy facts.

/** Bounded background jobs: submitters, cancellers and closers sharing a lock and a queue with the worker threads. */
module BackgroundBroker {
  import opened Outcomes

  datatype Status = Queued | Cancelled | Running | Succeeded | Failed

  predicate Terminal(status: Status) {
    status in {Cancelled, Succeeded, Failed}
  }

  /** `handed` is whether the job ever reached the queue: a submission whose receipt cannot be written does not. */
  datatype Job = Job(status: Status, completed: bool, starts: nat, handed: bool)

  datatype Token = Work(job: nat) | Stop

  /** Where a worker is, and the job it has in hand. */
  datatype Pc =
    | Idle
    | Got(job: nat)       // off the queue, its slot not yet released
    | Freed(job: nat)     // slot released, before the first look at the record
    | Looked(job: nat)    // not cancelled when looked at, before the region that marks it running
    | Working(job: nat)   // its function has been called
    | Returned(job: nat, ok: bool)  // its function is over, before the region that records how
    | Broken(job: nat)    // a receipt could not be written, before the handler marks the job failed
    | Leaving(job: nat)   // before the job is announced as completed
    | Exited

  /** `stops` counts the stop tokens the closing thread has still to put. `returned` and `unwritten` are history: how the
      task of each job came back, and the jobs a receipt could not be written for while they were worked on. */
  datatype State = State(jobs: seq<Job>, queue: seq<Token>, slots: int, closed: bool, stopSent: bool, stops: nat, workers: seq<Pc>,
                         returned: map<nat, bool>, unwritten: set<nat>)

  datatype Refusal = BrokerClosed | QueueFull | ReceiptFailed

  function Opened(maxWorkers: nat): State {
    State([], [], maxWorkers, false, false, 0, seq(maxWorkers, _ => Idle), map[], {})
  }

  // -- the locked regions ---------------------------------------------------------------------

  function WithJob(s: State, i: nat, job: Job): State
    requires i < |s.jobs|
  {
    s.(jobs := s.jobs[i := job])
  }

  /** `written` is whether the receipt could be written. */
  function Submitted(s: State, written: bool): (State, Result<nat, Refusal>) {
    if s.closed then (s, Err(BrokerClosed))
    else if s.slots <= 0 then (s, Err(QueueFull))
    else
      var t := s.(slots := s.slots - 1, jobs := s.jobs + [Job(Queued, false, 0, written)]);
      if written then (t.(queue := s.queue + [Work(|s.jobs|)]), Ok(|s.jobs|)) else (t, Err(ReceiptFailed))
  }

  function CancelledJob(s: State, i: nat, written: bool): (State, bool) {
    if i >= |s.jobs| || s.jobs[i].status != Queued then (s, false)
    else (WithJob(s, i, s.jobs[i].(status := Cancelled, completed := written || s.jobs[i].completed)), written)
  }

  function CancelledOf(job: Job): Job {
    if job.status == Queued then job.(status := Cancelled, completed := true) else job
  }

  function CancelQueued(jobs: seq<Job>): (r: seq<Job>)
    ensures |r| == |jobs| && forall i | 0 <= i < |jobs| :: r[i] == CancelledOf(jobs[i])
  {
    if jobs == [] then [] else [CancelledOf(jobs[0])] + CancelQueued(jobs[1..])
  }

  /** Whether a shutdown that cancels the queue gets stuck on job `k`, whose receipt cannot be written. */
  predicate Stuck(s: State, wait: bool, broken: Option<nat>) {
    broken.Some? && !s.closed && !wait && broken.value < |s.jobs| && s.jobs[broken.value].status == Queued
  }

  /** A shutdown. Stuck on a receipt, it leaves the broker closed, the jobs up to there cancelled, that one unannounced,
      and no stop sent; a later call sends them. */
  function Closed(s: State, wait: bool, broken: Option<nat>): State {
    if Stuck(s, wait, broken) then
      var k := broken.value;
      s.(closed := true, jobs := CancelQueued(s.jobs[..k]) + [s.jobs[k].(status := Cancelled)] + s.jobs[k + 1..])
    else
      var t := if s.closed then s else s.(closed := true, jobs := if wait then s.jobs else CancelQueued(s.jobs));
      if t.stopSent then t else t.(stopSent := true, stops := |s.workers|)
  }

  /** The broker's shared fields, and the regions that run under its lock. */
  class Broker {
    const maxWorkers: nat
    var jobs: seq<Job>
    var queue: seq<Token>
    var slots: int
    var closed: bool
    var stopSent: bool
    ghost var stops: nat
    ghost var workers: seq<Pc>
    ghost var returned: map<nat, bool>
    ghost var unwritten: set<nat>

    ghost function View(): State
      reads this
    {
      State(jobs, queue, slots, closed, stopSent, stops, workers, returned, unwritten)
    }

    constructor (maxWorkers: nat)
      requires maxWorkers > 0
      ensures View() == Opened(maxWorkers) && this.maxWorkers == maxWorkers
    {
      this.maxWorkers, jobs, queue, slots := maxWorkers, [], [], maxWorkers;
      closed, stopSent, stops, workers := false, false, 0, seq(maxWorkers, _ => Idle);
      returned, unwritten := map[], {};
    }

    method Submit(written: bool) returns (result: Result<nat, Refusal>)
      modifies this
      ensures (View(), result) == Submitted(old(View()), written)
    {
      if closed { return Err(BrokerClosed); }
      if slots <= 0 { return Err(QueueFull); }
      slots := slots - 1;
      var id := |jobs|;
      jobs := jobs + [Job(Queued, false, 0, written)];
      if !written { return Err(ReceiptFailed); }
      queue := queue + [Work(id)];
      result := Ok(id);
    }

    method Cancel(i: nat, written: bool) returns (done: bool)
      modifies this
      ensures (View(), done) == CancelledJob(old(View()), i, written)
    {
      if i >= |jobs| || jobs[i].status != Queued { return false; }
      jobs := jobs[i := jobs[i].(status := Cancelled)];
      if written {
        jobs := jobs[i := jobs[i].(completed := true)];
      }
      assert jobs == CancelledJob(old(View()), i, written).0.jobs;
      done := written;
    }

    /** Cancels everything queued, in order of submission; stops at a receipt that cannot be written. */
    method CancelAll(broken: Option<nat>) returns (ok: bool)
      modifies `jobs
      ensures ok == !(broken.Some? && broken.value < |old(jobs)| && old(jobs)[broken.value].status == Queued)
      ensures ok ==> jobs == CancelQueued(old(jobs))
      ensures !ok ==> jobs == CancelQueued(old(jobs)[..broken.value]) + [old(jobs)[broken.value].(status := Cancelled)]
                              + old(jobs)[broken.value + 1..]
    {
      var i := 0;
      while i < |jobs|
        invariant 0 <= i <= |jobs| == |old(jobs)|
        invariant forall k | 0 <= k < i :: jobs[k] == CancelledOf(old(jobs)[k])
        invariant forall k | i <= k < |jobs| :: jobs[k] == old(jobs)[k]
        invariant broken.Some? && broken.value < i ==> old(jobs)[broken.value].status != Queued
      {
        if jobs[i].status == Queued {
          jobs := jobs[i := jobs[i].(status := Cancelled)];
          if broken == Some(i) {
            return false;
          }
          jobs := jobs[i := jobs[i].(completed := true)];
        }
        i := i + 1;
      }
      ok := true;
    }

    method Close(wait: bool, broken: Option<nat>) returns (sendStop: bool)
      requires |workers| == maxWorkers
      modifies this
      ensures View() == Closed(old(View()), wait, broken)
      ensures sendStop == (!Stuck(old(View()), wait, broken) && !old(stopSent))
    {
      sendStop := false;
      if !closed {
        closed := true;
        if !wait {
          var ok := CancelAll(broken);
          if !ok {
            return;
          }
        }
      }
      if !stopSent {
        stopSent, stops, sendStop := true, maxWorkers, true;
      }
    }

    // -- what a worker does under the lock; `worker` is its place among the threads --------------

    /** The first look at a job: whether to go on with it. */
    method WorkerLooks(ghost worker: nat, i: nat) returns (goOn: bool)
      requires Enabled(View(), Look(worker)) && workers[worker].job == i
      modifies `workers
      ensures View() == Do(old(View()), Look(worker)) && goOn == (jobs[i].status != Cancelled)
    {
      goOn := jobs[i].status != Cancelled;
      workers := workers[worker := if goOn then Looked(i) else Idle];
    }

    method WorkerBegins(ghost worker: nat, i: nat, written: bool) returns (run: bool)
      requires Enabled(View(), Begin(worker, written)) && workers[worker].job == i
      modifies `workers, `jobs, `unwritten
      ensures View() == Do(old(View()), Begin(worker, written)) && run == (written && old(jobs)[i].status != Cancelled)
    {
      if jobs[i].status == Cancelled {
        workers := workers[worker := Leaving(i)];
        return false;
      }
      jobs := jobs[i := jobs[i].(status := Running, starts := jobs[i].starts + if written then 1 else 0)];
      workers := workers[worker := if written then Working(i) else Broken(i)];
      unwritten := if written then unwritten else unwritten + {i};
      run := written;
    }

    method WorkerRecords(ghost worker: nat, i: nat, ok: bool, written: bool)
      requires Enabled(View(), Record(worker, written)) && workers[worker] == Returned(i, ok)
      modifies `workers, `jobs, `unwritten
      ensures View() == Do(old(View()), Record(worker, written))
    {
      jobs := jobs[i := jobs[i].(status := if ok then Succeeded else Failed)];
      workers := workers[worker := if written then Leaving(i) else Broken(i)];
      unwritten := if written then unwritten else unwritten + {i};
    }

    method WorkerFails(ghost worker: nat, i: nat)
      requires Enabled(View(), Fail(worker)) && workers[worker].job == i
      modifies `workers, `jobs
      ensures View() == Do(old(View()), Fail(worker))
    {
      jobs := jobs[i := jobs[i].(status := Failed)];
      workers := workers[worker := Leaving(i)];
    }

    method WorkerAnnounces(ghost worker: nat, i: nat)
      requires Enabled(View(), Complete(worker)) && workers[worker].job == i
      modifies `workers, `jobs
      ensures View() == Do(old(View()), Complete(worker))
    {
      jobs := jobs[i := jobs[i].(completed := true)];
      workers := workers[worker := Idle];
    }
  }

  // -- threads ---------------------------------------------------------------------------------------

  datatype Step =
    | Submit(written: bool)
    | Cancel(job: nat, written: bool)
    | Close(wait: bool, broken: Option<nat>)
    | PutStop
    | Take(worker: nat)
    | Release(worker: nat)
    | Look(worker: nat)
    | Begin(worker: nat, written: bool)
    | Finish(worker: nat, ok: bool)
    | Record(worker: nat, written: bool)
    | Fail(worker: nat)
    | Complete(worker: nat)

  predicate Holds(pc: Pc, i: nat) {
    !pc.Idle? && !pc.Exited? && pc.job == i
  }

  predicate Enabled(s: State, step: Step) {
    match step
    case Submit(_) => true
    case Cancel(_, _) => true
    case Close(_, _) => true
    case PutStop => s.stops > 0
    case Take(w) => w < |s.workers| && s.workers[w].Idle? && s.queue != []
    case Release(w) => w < |s.workers| && s.workers[w].Got?
    case Look(w) => w < |s.workers| && s.workers[w].Freed? && s.workers[w].job < |s.jobs|
    case Begin(w, _) => w < |s.workers| && s.workers[w].Looked? && s.workers[w].job < |s.jobs|
    case Finish(w, _) => w < |s.workers| && s.workers[w].Working?
    case Record(w, _) => w < |s.workers| && s.workers[w].Returned? && s.workers[w].job < |s.jobs|
    case Fail(w) => w < |s.workers| && s.workers[w].Broken? && s.workers[w].job < |s.jobs|
    case Complete(w) => w < |s.workers| && s.workers[w].Leaving? && s.workers[w].job < |s.jobs|
  }

  function Moved(s: State, worker: nat, pc: Pc): State
    requires worker < |s.workers|
  {
    s.(workers := s.workers[worker := pc])
  }

  function Noted(s: State, i: nat, written: bool): State {
    if written then s else s.(unwritten := s.unwritten + {i})
  }

  function Do(s: State, step: Step): State
    requires Enabled(s, step)
  {
    match step
    case Submit(written) => Submitted(s, written).0
    case Cancel(i, written) => CancelledJob(s, i, written).0
    case Close(wait, broken) => Closed(s, wait, broken)
    case PutStop => s.(queue := s.queue + [Stop], stops := s.stops - 1)
    case Take(w) =>
      var t := s.(queue := s.queue[1..]);
      (match s.queue[0] case Work(i) => Moved(t, w, Got(i)) case Stop => Moved(t, w, Exited))
    case Release(w) => Moved(s, w, Freed(s.workers[w].job)).(slots := s.slots + 1)
    case Look(w) =>
      var i := s.workers[w].job;
      Moved(s, w, if s.jobs[i].status == Cancelled then Idle else Looked(i))
    case Begin(w, written) =>
      var i := s.workers[w].job;
      if s.jobs[i].status == Cancelled then Moved(s, w, Leaving(i))
      else
        var t := WithJob(s, i, s.jobs[i].(status := Running, starts := s.jobs[i].starts + if written then 1 else 0));
        Moved(Noted(t, i, written), w, if written then Working(i) else Broken(i))
    case Finish(w, ok) => Moved(s, w, Returned(s.workers[w].job, ok)).(returned := s.returned[s.workers[w].job := ok])
    case Record(w, written) =>
      var i := s.workers[w].job;
      var t := WithJob(s, i, s.jobs[i].(status := if s.workers[w].ok then Succeeded else Failed));
      Moved(Noted(t, i, written), w, if written then Leaving(i) else Broken(i))
    case Fail(w) =>
      var i := s.workers[w].job;
      Moved(WithJob(s, i, s.jobs[i].(status := Failed)), w, Leaving(i))
    case Complete(w) =>
      var i := s.workers[w].job;
      Moved(WithJob(s, i, s.jobs[i].(completed := true)), w, Idle)
  }

  ghost predicate Run(s: State, steps: seq<Step>)
    decreases |steps|
  {
    steps == [] || (Enabled(s, steps[0]) && Run(Do(s, steps[0]), steps[1..]))
  }

  function After(s: State, steps: seq<Step>): State
    requires Run(s, steps)
    decreases |steps|
  {
    if steps == [] then s else After(Do(s, steps[0]), steps[1..])
  }

  // -- what every step keeps: where each job is ------------------------------------------------------

  /** Which statuses fit where a worker is with the job. */
  predicate Fits(pc: Pc, job: Job) {
    match pc
    case Idle => true
    case Exited => true
    case Got(_) => job.status in {Queued, Cancelled}
    case Freed(_) => job.status in {Queued, Cancelled}
    case Looked(_) => job.status in {Queued, Cancelled}
    case Working(_) => job.status == Running
    case Returned(_, _) => job.status == Running
    case Broken(_) => job.status in {Running, Succeeded, Failed} && !job.completed
    case Leaving(_) => Terminal(job.status) && (job.completed ==> job.status == Cancelled)
  }

  ghost predicate InQueue(s: State, i: nat) {
    Work(i) in s.queue
  }

  ghost predicate InHand(s: State, i: nat) {
    exists w | 0 <= w < |s.workers| :: Holds(s.workers[w], i)
  }

  ghost predicate JobOk(s: State, i: nat)
    requires i < |s.jobs|
  {
    var job := s.jobs[i];
    && job.starts <= 1
    && (job.status in {Queued, Cancelled} ==> job.starts == 0)
    && (job.completed ==> Terminal(job.status))
    && (InQueue(s, i) ==> job.status in {Queued, Cancelled})
    && (job.handed && !InQueue(s, i) && !InHand(s, i) ==> Terminal(job.status) && (job.completed || job.status == Cancelled))
  }

  /** Every job is at most once in the queue or in one worker's hand. */
  ghost predicate Placed(s: State) {
    && (forall j | 0 <= j < |s.queue| && s.queue[j].Work? :: s.queue[j].job < |s.jobs| && s.jobs[s.queue[j].job].handed)
    && (forall j, k | 0 <= j < k < |s.queue| && s.queue[j].Work? :: s.queue[j] != s.queue[k])
    && (forall w | 0 <= w < |s.workers| && !s.workers[w].Idle? && !s.workers[w].Exited? ::
          && s.workers[w].job < |s.jobs| && s.jobs[s.workers[w].job].handed && !InQueue(s, s.workers[w].job)
          && Fits(s.workers[w], s.jobs[s.workers[w].job]))
    && (forall a, b | 0 <= a < b < |s.workers| && !s.workers[a].Idle? && !s.workers[a].Exited? :: !Holds(s.workers[b], s.workers[a].job))
  }

  ghost predicate Tracked(s: State) {
    Placed(s) && forall i | 0 <= i < |s.jobs| :: JobOk(s, i)
  }

  ghost predicate Sound(job: Job) {
    && job.starts <= 1
    && (job.status in {Queued, Cancelled} ==> job.starts == 0)
    && (job.completed ==> Terminal(job.status))
  }

  lemma SameHands(s: State, t: State, w: nat)
    requires w < |s.workers| == |t.workers|
    requires forall v | 0 <= v < |s.workers| && v != w :: t.workers[v] == s.workers[v]
    ensures forall i | !Holds(s.workers[w], i) && !Holds(t.workers[w], i) :: InHand(t, i) <==> InHand(s, i)
  {
    forall i | !Holds(s.workers[w], i) && !Holds(t.workers[w], i) ensures InHand(t, i) <==> InHand(s, i) {
      if InHand(s, i) {
        var v :| 0 <= v < |s.workers| && Holds(s.workers[v], i);
        assert Holds(t.workers[v], i);
      }
      if InHand(t, i) {
        var v :| 0 <= v < |t.workers| && Holds(t.workers[v], i);
        assert Holds(s.workers[v], i);
      }
    }
  }

  /** A worker goes on with the job in its hand. */
  lemma HandStep(s: State, w: nat, pc: Pc, job: Job)
    requires Tracked(s) && w < |s.workers| && !s.workers[w].Idle? && !s.workers[w].Exited?
    requires Holds(pc, s.workers[w].job) && s.workers[w].job < |s.jobs|
    requires Fits(pc, job) && Sound(job) && job.handed
    ensures Tracked(Moved(WithJob(s, s.workers[w].job, job), w, pc))
  {
    var i := s.workers[w].job;
    var t := Moved(WithJob(s, i, job), w, pc);
    SameHands(s, t, w);
    assert Holds(t.workers[w], i) && InHand(t, i) && !InQueue(s, i);
    forall k | 0 <= k < |t.jobs| ensures JobOk(t, k) {
      if k != i {
        assert JobOk(s, k) && !Holds(s.workers[w], k) && !Holds(t.workers[w], k);
      }
    }
  }

  /** A worker lets go of a job that is over. */
  lemma LetGoStep(s: State, w: nat, job: Job)
    requires Tracked(s) && w < |s.workers| && !s.workers[w].Idle? && !s.workers[w].Exited?
    requires s.workers[w].job < |s.jobs| && Sound(job) && job.handed && Terminal(job.status) && (job.completed || job.status == Cancelled)
    ensures Tracked(Moved(WithJob(s, s.workers[w].job, job), w, Idle))
  {
    var i := s.workers[w].job;
    var t := Moved(WithJob(s, i, job), w, Idle);
    SameHands(s, t, w);
    assert !InQueue(s, i);
    forall k | 0 <= k < |t.jobs| ensures JobOk(t, k) {
      if k != i {
        assert JobOk(s, k) && !Holds(s.workers[w], k);
      }
    }
  }

  lemma TakeWork(s: State, w: nat, i: nat)
    requires Tracked(s) && Enabled(s, Take(w)) && s.queue[0] == Work(i)
    ensures Tracked(Do(s, Take(w)))
  {
    var t := Do(s, Take(w));
    SameHands(s, t, w);
    assert Holds(t.workers[w], i) && InHand(t, i);
    assert s.queue == [Work(i)] + t.queue;
    assert InQueue(s, i) && !InQueue(t, i) && JobOk(s, i);
    forall k | 0 <= k < |t.jobs| ensures JobOk(t, k) {
      assert JobOk(s, k) && (k != i ==> (InQueue(t, k) <==> InQueue(s, k)));
    }
  }

  lemma TakeStop(s: State, w: nat)
    requires Tracked(s) && Enabled(s, Take(w)) && s.queue[0] == Stop
    ensures Tracked(Do(s, Take(w)))
  {
    var t := Do(s, Take(w));
    SameHands(s, t, w);
    assert s.queue == [Stop] + t.queue;
    forall k | 0 <= k < |t.jobs| ensures JobOk(t, k) {
      assert JobOk(s, k) && (InQueue(t, k) <==> InQueue(s, k));
    }
  }

  lemma SubmitKeeps(s: State, written: bool)
    requires Tracked(s)
    ensures Tracked(Do(s, Step.Submit(written)))
  {
    var t, n := Do(s, Step.Submit(written)), |s.jobs|;
    if t != s {
      assert !InQueue(s, n);
      assert !InHand(s, n);
      forall k | 0 <= k < |t.jobs| ensures JobOk(t, k) {
        assert InHand(t, k) <==> InHand(s, k);
        if k < n {
          assert JobOk(s, k) && (InQueue(t, k) <==> InQueue(s, k));
        }
      }
    }
  }

  predicate Cancels(was: Job, now: Job) {
    now == was || (was.status == Queued && now.status == Cancelled && now.starts == was.starts && now.handed == was.handed)
  }

  lemma CancelsKeep(s: State, jobs: seq<Job>)
    requires Tracked(s) && |jobs| == |s.jobs| && forall i | 0 <= i < |jobs| :: Cancels(s.jobs[i], jobs[i])
    ensures Tracked(s.(jobs := jobs))
  {
    var t := s.(jobs := jobs);
    forall k | 0 <= k < |t.jobs| ensures JobOk(t, k) {
      assert JobOk(s, k) && Cancels(s.jobs[k], jobs[k]);
      assert (InHand(t, k) <==> InHand(s, k)) && (InQueue(t, k) <==> InQueue(s, k));
    }
  }

  lemma StopKeeps(s: State)
    requires Tracked(s) && s.stops > 0
    ensures Tracked(Do(s, PutStop))
  {
    var t := Do(s, PutStop);
    forall k | 0 <= k < |t.jobs| ensures JobOk(t, k) {
      assert JobOk(s, k) && (InHand(t, k) <==> InHand(s, k)) && (InQueue(t, k) <==> InQueue(s, k));
    }
  }

  /** Fields the placement of jobs does not depend on. */
  lemma OtherFields(s: State, t: State)
    requires Tracked(s) && t.jobs == s.jobs && t.queue == s.queue && t.workers == s.workers
    ensures Tracked(t)
  {
    forall k | 0 <= k < |t.jobs| ensures JobOk(t, k) {
      assert JobOk(s, k) && (InHand(t, k) <==> InHand(s, k)) && (InQueue(t, k) <==> InQueue(s, k));
    }
  }

  lemma WorkerStepKeeps(s: State, step: Step)
    requires Tracked(s) && Enabled(s, step)
    requires step.Release? || step.Look? || step.Begin? || step.Finish? || step.Record? || step.Fail? || step.Complete?
    ensures Tracked(Do(s, step))
  {
    var w := step.worker;
    var i := s.workers[w].job;
    var job := s.jobs[i];
    assert JobOk(s, i) && WithJob(s, i, job) == s;
    match step
    case Release(_) =>
      HandStep(s, w, Freed(i), job);
      OtherFields(Moved(s, w, Freed(i)), Do(s, step));
    case Look(_) =>
      if job.status == Cancelled { LetGoStep(s, w, job); } else { HandStep(s, w, Looked(i), job); }
    case Begin(_, written) =>
      if job.status == Cancelled { HandStep(s, w, Leaving(i), job); }
      else {
        var begun := job.(status := Running, starts := job.starts + if written then 1 else 0);
        HandStep(s, w, if written then Working(i) else Broken(i), begun);
        OtherFields(Moved(WithJob(s, i, begun), w, if written then Working(i) else Broken(i)), Do(s, step));
      }
    case Finish(_, ok) =>
      HandStep(s, w, Returned(i, ok), job);
      OtherFields(Moved(s, w, Returned(i, ok)), Do(s, step));
    case Record(_, written) =>
      var over := job.(status := if s.workers[w].ok then Succeeded else Failed);
      HandStep(s, w, if written then Leaving(i) else Broken(i), over);
      OtherFields(Moved(WithJob(s, i, over), w, if written then Leaving(i) else Broken(i)), Do(s, step));
    case Fail(_) => HandStep(s, w, Leaving(i), job.(status := Failed));
    case Complete(_) => LetGoStep(s, w, job.(completed := true));
  }

  lemma StepKeeps(s: State, step: Step)
    requires Tracked(s) && Enabled(s, step)
    ensures Tracked(Do(s, step))
  {
    if step.Submit? {
      SubmitKeeps(s, step.written);
    } else if step.Cancel? {
      CancelsKeep(s, Do(s, step).jobs);
    } else if step.Close? {
      CancelsKeep(s, Do(s, step).jobs);
      OtherFields(s.(jobs := Do(s, step).jobs), Do(s, step));
    } else if step.PutStop? {
      StopKeeps(s);
    } else if step.Take? {
      if s.queue[0].Stop? { TakeStop(s, step.worker); } else { TakeWork(s, step.worker, s.queue[0].job); }
    } else {
      WorkerStepKeeps(s, step);
    }
  }

  lemma OpenedIsTracked(maxWorkers: nat)
    ensures Tracked(Opened(maxWorkers))
  {
  }

  lemma {:induction false} RunKeeps(s: State, steps: seq<Step>)
    requires Tracked(s) && Run(s, steps)
    ensures Tracked(After(s, steps))
    decreases |steps|
  {
    if steps != [] {
      StepKeeps(s, steps[0]);
      RunKeeps(Do(s, steps[0]), steps[1..]);
    }
  }

  /** Over every interleaving: each task is called at most once, and only terminal jobs are announced. */
  lemma StartsAtMostOnce(maxWorkers: nat, steps: seq<Step>, i: nat)
    requires Run(Opened(maxWorkers), steps) && i < |After(Opened(maxWorkers), steps).jobs|
    ensures var job := After(Opened(maxWorkers), steps).jobs[i]; job.starts <= 1 && (job.completed ==> Terminal(job.status))
  {
    OpenedIsTracked(maxWorkers);
    RunKeeps(Opened(maxWorkers), steps);
    assert JobOk(After(Opened(maxWorkers), steps), i);
  }

  lemma FinalJobsStay(s: State, step: Step, i: nat)
    requires Tracked(s) && Enabled(s, step) && i < |s.jobs|
    ensures i < |Do(s, step).jobs|
    ensures s.jobs[i].status == Cancelled ==> Do(s, step).jobs[i].status == Cancelled && Do(s, step).jobs[i].starts == 0
    ensures s.jobs[i].completed ==> Do(s, step).jobs[i] == s.jobs[i]
  {
    assert JobOk(s, i);
  }

  /** A cancelled job never starts, and an announced job is never changed again. */
  lemma {:induction false} CancelledNeverStarts(s: State, steps: seq<Step>, i: nat)
    requires Tracked(s) && Run(s, steps) && i < |s.jobs|
    ensures var t := After(s, steps);
      && i < |t.jobs|
      && (s.jobs[i].status == Cancelled ==> t.jobs[i].status == Cancelled && t.jobs[i].starts == 0)
      && (s.jobs[i].completed ==> t.jobs[i] == s.jobs[i])
    decreases |steps|
  {
    assert JobOk(s, i);
    if steps != [] {
      StepKeeps(s, steps[0]);
      FinalJobsStay(s, steps[0], i);
      CancelledNeverStarts(Do(s, steps[0]), steps[1..], i);
    }
  }

  // -- what a job reports of its task ----------------------------------------------------------

  /** A status that says how the task ended says how it came back; a failure may also be that of a receipt. */
  ghost predicate TellsTrue(s: State, i: nat)
    requires i < |s.jobs|
  {
    && (s.jobs[i].status == Succeeded ==> i in s.returned && s.returned[i])
    && (s.jobs[i].status == Failed ==> i in s.unwritten || (i in s.returned && !s.returned[i]))
  }

  /** A worker knows how the task in its hand came back, and what it could not write. */
  ghost predicate KnowsJob(s: State, pc: Pc) {
    match pc
    case Working(i) => i < |s.jobs| && s.jobs[i].starts == 1
    case Returned(i, ok) => i in s.returned && s.returned[i] == ok
    case Broken(i) => i in s.unwritten
    case _ => true
  }

  ghost predicate Reported(s: State) {
    && (forall i | 0 <= i < |s.jobs| :: TellsTrue(s, i))
    && (forall w | 0 <= w < |s.workers| :: KnowsJob(s, s.workers[w]))
    && (forall i | i in s.returned :: i < |s.jobs| && s.jobs[i].starts == 1)
  }

  lemma QuietReports(s: State, t: State)
    requires Reported(s) && t.workers == s.workers && t.returned == s.returned && t.unwritten == s.unwritten && |s.jobs| <= |t.jobs|
    requires forall i | 0 <= i < |s.jobs| :: t.jobs[i].starts == s.jobs[i].starts && (t.jobs[i].status == s.jobs[i].status || t.jobs[i].status == Cancelled)
    requires forall i | |s.jobs| <= i < |t.jobs| :: t.jobs[i].status == Queued
    ensures Reported(t)
  {
    forall i | 0 <= i < |t.jobs| ensures TellsTrue(t, i) {
      if i < |s.jobs| {
        assert TellsTrue(s, i);
      }
    }
    forall w | 0 <= w < |t.workers| ensures KnowsJob(t, t.workers[w]) {
      assert KnowsJob(s, s.workers[w]);
    }
  }

  /** A worker's step on the job in its hand leaves the others' jobs alone. */
  lemma WorkerReports(s: State, step: Step)
    requires Tracked(s) && Reported(s) && Enabled(s, step)
    requires step.Release? || step.Look? || step.Begin? || step.Finish? || step.Record? || step.Fail? || step.Complete?
    ensures Reported(Do(s, step))
  {
    var t, w := Do(s, step), step.worker;
    var i := s.workers[w].job;
    HandReports(s, step);
    forall k | 0 <= k < |t.jobs| ensures TellsTrue(t, k) {
      assert TellsTrue(s, k);
    }
    forall v | 0 <= v < |t.workers| ensures KnowsJob(t, t.workers[v]) {
      assert KnowsJob(s, s.workers[v]);
      if v != w {
        OthersHoldOthers(s, v, w);
      }
    }
  }

  /** The step itself: the job and its worker stay truthful, and nothing else moves. */
  lemma HandReports(s: State, step: Step)
    requires Tracked(s) && Reported(s) && Enabled(s, step)
    requires step.Release? || step.Look? || step.Begin? || step.Finish? || step.Record? || step.Fail? || step.Complete?
    ensures var (t, w) := (Do(s, step), step.worker);
      var i := s.workers[w].job;
      && i < |s.jobs| == |t.jobs| && |t.workers| == |s.workers| && TellsTrue(t, i) && KnowsJob(t, t.workers[w])
      && (forall k | 0 <= k < |s.jobs| && k != i :: t.jobs[k] == s.jobs[k])
      && (forall v | 0 <= v < |s.workers| && v != w :: t.workers[v] == s.workers[v])
      && (forall k | k != i :: (k in t.returned <==> k in s.returned) && (k in s.returned ==> t.returned[k] == s.returned[k]))
      && s.unwritten <= t.unwritten
      && (i in t.returned ==> t.jobs[i].starts == 1)
  {
    var i := s.workers[step.worker].job;
    assert JobOk(s, i) && KnowsJob(s, s.workers[step.worker]) && TellsTrue(s, i);
  }

  lemma OthersHoldOthers(s: State, v: nat, w: nat)
    requires Placed(s) && v < |s.workers| && w < |s.workers| && v != w && !s.workers[w].Idle? && !s.workers[w].Exited?
    ensures !Holds(s.workers[v], s.workers[w].job)
  {
    assert Holds(s.workers[w], s.workers[w].job);
  }

  lemma StepReports(s: State, step: Step)
    requires Tracked(s) && Reported(s) && Enabled(s, step)
    ensures Reported(Do(s, step))
  {
    var t := Do(s, step);
    if step.Submit? || step.Cancel? || step.Close? || step.PutStop? {
      QuietReports(s, t);
    } else if step.Take? {
      TakeReports(s, step.worker);
    } else {
      WorkerReports(s, step);
    }
  }

  lemma TakeReports(s: State, w: nat)
    requires Reported(s) && Enabled(s, Take(w))
    ensures Reported(Do(s, Take(w)))
  {
    var t := Do(s, Take(w));
    forall v | 0 <= v < |t.workers| ensures KnowsJob(t, t.workers[v]) {
      assert KnowsJob(s, s.workers[v]);
    }
    forall i | 0 <= i < |t.jobs| ensures TellsTrue(t, i) {
      assert TellsTrue(s, i);
    }
  }

  lemma {:induction false} RunReports(s: State, steps: seq<Step>)
    requires Tracked(s) && Reported(s) && Run(s, steps)
    ensures Reported(After(s, steps))
    decreases |steps|
  {
    if steps != [] {
      StepKeeps(s, steps[0]);
      StepReports(s, steps[0]);
      RunReports(Do(s, steps[0]), steps[1..]);
    }
  }

  /** Over every interleaving: a job is reported as succeeded only if its task was called once and returned, and as failed
      only if the task was called once and raised, or a receipt of the job could not be written. */
  lemma ReportsAreTrue(maxWorkers: nat, steps: seq<Step>, i: nat)
    requires Run(Opened(maxWorkers), steps) && i < |After(Opened(maxWorkers), steps).jobs|
    ensures var s := After(Opened(maxWorkers), steps);
      && (s.jobs[i].status == Succeeded ==> s.jobs[i].starts == 1 && i in s.returned && s.returned[i])
      && (s.jobs[i].status == Failed ==> i in s.unwritten || (s.jobs[i].starts == 1 && i in s.returned && !s.returned[i]))
  {
    OpenedIsTracked(maxWorkers);
    RunReports(Opened(maxWorkers), steps);
    assert TellsTrue(After(Opened(maxWorkers), steps), i);
  }

  // -- counting slots and stops -----------------------------------------------------------------

  function Count<T>(xs: seq<T>, p: T -> bool): nat {
    if xs == [] then 0 else (if p(xs[0]) then 1 else 0) + Count(xs[1..], p)
  }

  lemma {:induction false} CountConcat<T>(a: seq<T>, b: seq<T>, p: T -> bool)
    ensures Count(a + b, p) == Count(a, p) + Count(b, p)
    decreases |a|
  {
    if a == [] {
      assert a + b == b;
    } else {
      assert (a + b)[1..] == a[1..] + b;
      CountConcat(a[1..], b, p);
    }
  }

  lemma CountOne<T>(x: T, p: T -> bool)
    ensures Count([x], p) == if p(x) then 1 else 0
  {
    assert [x][1..] == [];
  }

  lemma CountUpdate<T>(xs: seq<T>, i: nat, x: T, p: T -> bool)
    requires i < |xs|
    ensures Count(xs[i := x], p) == Count(xs, p) - (if p(xs[i]) then 1 else 0) + (if p(x) then 1 else 0)
  {
    assert xs == xs[..i] + ([xs[i]] + xs[i + 1..]) && xs[i := x] == xs[..i] + ([x] + xs[i + 1..]);
    CountConcat(xs[..i], [xs[i]] + xs[i + 1..], p); CountConcat([xs[i]], xs[i + 1..], p); CountOne(xs[i], p);
    CountConcat(xs[..i], [x] + xs[i + 1..], p); CountConcat([x], xs[i + 1..], p); CountOne(x, p);
  }

  lemma {:induction false} CountSame(jobs: seq<Job>, others: seq<Job>, p: Job -> bool)
    requires |jobs| == |others| && forall i | 0 <= i < |jobs| :: p(jobs[i]) == p(others[i])
    ensures Count(jobs, p) == Count(others, p)
    decreases |jobs|
  {
    if jobs != [] {
      CountSame(jobs[1..], others[1..], p);
    }
  }

  lemma {:induction false} CountAll<T>(xs: seq<T>, p: T -> bool)
    ensures Count(xs, p) <= |xs|
    ensures Count(xs, p) == |xs| ==> forall x <- xs :: p(x)
    decreases |xs|
  {
    if xs != [] {
      CountAll(xs[1..], p);
    }
  }

  predicate IsWork(token: Token) { token.Work? }
  predicate IsStop(token: Token) { token.Stop? }
  predicate IsGot(pc: Pc) { pc.Got? }
  predicate HasExited(pc: Pc) { pc.Exited? }
  predicate Unhanded(job: Job) { !job.handed }

  /** Free slots, jobs whose slot has not been released, and slots lost to submissions that failed make up the workers. */
  ghost predicate SlotsAddUp(s: State) {
    && s.slots >= 0
    && s.slots + Count(s.queue, IsWork) + Count(s.workers, IsGot) + Count(s.jobs, Unhanded) == |s.workers|
  }

  /** One stop for each worker, after every job. */
  ghost predicate StopsComeLast(s: State) {
    && Count(s.queue, IsStop) + Count(s.workers, HasExited) + s.stops == (if s.stopSent then |s.workers| else 0)
    && (s.stopSent ==> s.closed)
    && (forall j, k | 0 <= j < k < |s.queue| && s.queue[j].Stop? :: s.queue[k].Stop?)
    && (Count(s.workers, HasExited) > 0 ==> Count(s.queue, IsWork) == 0)
  }

  ghost predicate Counted(s: State) {
    SlotsAddUp(s) && StopsComeLast(s)
  }

  lemma QueueGrows(queue: seq<Token>, token: Token)
    ensures Count(queue + [token], IsWork) == Count(queue, IsWork) + if token.Work? then 1 else 0
    ensures Count(queue + [token], IsStop) == Count(queue, IsStop) + if token.Stop? then 1 else 0
  {
    CountConcat(queue, [token], IsWork); CountOne(token, IsWork);
    CountConcat(queue, [token], IsStop); CountOne(token, IsStop);
  }

  lemma {:induction false} StopsOnly(queue: seq<Token>)
    requires forall token <- queue :: token.Stop?
    ensures Count(queue, IsWork) == 0
    decreases |queue|
  {
    if queue != [] {
      assert queue[0] in queue;
      StopsOnly(queue[1..]);
    }
  }

  lemma SubmitCounts(s: State, written: bool)
    requires Counted(s)
    ensures Counted(Do(s, Step.Submit(written)))
  {
    var job := Job(Queued, false, 0, written);
    CountConcat(s.jobs, [job], Unhanded); CountOne(job, Unhanded);
    QueueGrows(s.queue, Work(|s.jobs|));
    CountStopSound(s.queue);
  }

  lemma {:induction false} CountStopSound(queue: seq<Token>)
    ensures Count(queue, IsStop) == 0 ==> forall k | 0 <= k < |queue| :: queue[k].Work?
    decreases |queue|
  {
    if queue != [] {
      CountStopSound(queue[1..]);
    }
  }

  lemma TakeCounts(s: State, w: nat)
    requires Counted(s) && Enabled(s, Take(w))
    ensures Counted(Do(s, Take(w)))
  {
    var t := Do(s, Take(w));
    assert s.queue == [s.queue[0]] + s.queue[1..];
    CountUpdate(s.workers, w, t.workers[w], IsGot);
    CountUpdate(s.workers, w, t.workers[w], HasExited);
    if s.queue[0].Stop? {
      StopsOnly(s.queue);
    }
  }

  lemma PcCounts(s: State, w: nat, pc: Pc, t: State)
    requires Counted(s) && w < |s.workers| && !s.workers[w].Got? && !pc.Got? && !s.workers[w].Exited? && !pc.Exited?
    requires t == s.(workers := s.workers[w := pc], jobs := t.jobs, returned := t.returned, unwritten := t.unwritten)
    requires |t.jobs| == |s.jobs| && forall i | 0 <= i < |s.jobs| :: t.jobs[i].handed == s.jobs[i].handed
    ensures Counted(t)
  {
    CountUpdate(s.workers, w, pc, IsGot);
    CountUpdate(s.workers, w, pc, HasExited);
    CountSame(s.jobs, t.jobs, Unhanded);
  }

  lemma StepCounts(s: State, step: Step)
    requires Counted(s) && Enabled(s, step)
    ensures Counted(Do(s, step))
  {
    if step.Submit? {
      SubmitCounts(s, step.written);
    } else if step.Cancel? || step.Close? {
      CancelCounts(s, step);
    } else if step.PutStop? {
      QueueGrows(s.queue, Stop);
    } else if step.Take? {
      TakeCounts(s, step.worker);
    } else if step.Release? {
      ReleaseCounts(s, step.worker);
    } else {
      WorkerCounts(s, step);
    }
  }

  lemma CancelCounts(s: State, step: Step)
    requires Counted(s) && (step.Cancel? || step.Close?)
    ensures Counted(Do(s, step))
  {
    CountSame(s.jobs, Do(s, step).jobs, Unhanded);
  }

  lemma ReleaseCounts(s: State, w: nat)
    requires Counted(s) && Enabled(s, Release(w))
    ensures Counted(Do(s, Release(w)))
  {
    var t := Do(s, Release(w));
    CountUpdate(s.workers, w, t.workers[w], IsGot);
    CountUpdate(s.workers, w, t.workers[w], HasExited);
  }

  lemma WorkerCounts(s: State, step: Step)
    requires Counted(s) && Enabled(s, step)
    requires step.Look? || step.Begin? || step.Finish? || step.Record? || step.Fail? || step.Complete?
    ensures Counted(Do(s, step))
  {
    OnlyItsWorker(s, step);
    PcCounts(s, step.worker, Do(s, step).workers[step.worker], Do(s, step));
  }

  lemma OnlyItsWorker(s: State, step: Step)
    requires Enabled(s, step)
    requires step.Look? || step.Begin? || step.Finish? || step.Record? || step.Fail? || step.Complete?
    ensures var (t, w) := (Do(s, step), step.worker);
      && |t.workers| == |s.workers| && !t.workers[w].Got? && !t.workers[w].Exited?
      && t == s.(workers := s.workers[w := t.workers[w]], jobs := t.jobs, returned := t.returned, unwritten := t.unwritten)
      && |t.jobs| == |s.jobs| && forall i | 0 <= i < |s.jobs| :: t.jobs[i].handed == s.jobs[i].handed
  {
  }

  lemma {:induction false} OpenedCounts(n: nat)
    ensures Count(seq(n, _ => Idle), IsGot) == 0 && Count(seq(n, _ => Idle), HasExited) == 0
    decreases n
  {
    if n > 0 {
      assert seq(n, _ => Idle)[1..] == seq(n - 1, _ => Idle);
      OpenedCounts(n - 1);
    }
  }

  lemma SameWorkers(s: State, step: Step)
    requires Enabled(s, step)
    ensures |Do(s, step).workers| == |s.workers|
  {
  }

  lemma {:induction false} RunCounts(s: State, steps: seq<Step>)
    requires Counted(s) && Run(s, steps)
    ensures Counted(After(s, steps)) && |After(s, steps).workers| == |s.workers|
    decreases |steps|
  {
    if steps != [] {
      StepCounts(s, steps[0]);
      SameWorkers(s, steps[0]);
      RunCounts(Do(s, steps[0]), steps[1..]);
    }
  }

  /** Over every interleaving the slots add up; so a release never exceeds the bound of the semaphore. */
  lemma SlotsAreConserved(maxWorkers: nat, steps: seq<Step>)
    requires Run(Opened(maxWorkers), steps)
    ensures var s := After(Opened(maxWorkers), steps);
      && SlotsAddUp(s) && s.slots <= maxWorkers
      && forall w | Enabled(s, Release(w)) :: Do(s, Release(w)).slots <= maxWorkers
  {
    OpenedCounts(maxWorkers);
    RunCounts(Opened(maxWorkers), steps);
    var s := After(Opened(maxWorkers), steps);
    forall w | Enabled(s, Release(w)) ensures Do(s, Release(w)).slots <= maxWorkers {
      StepCounts(s, Release(w));
    }
  }

  /** Once every worker has left, every job that reached the queue is over, and is announced unless it was cancelled. */
  lemma NothingIsLeftBehind(maxWorkers: nat, steps: seq<Step>, i: nat)
    requires maxWorkers > 0 && Run(Opened(maxWorkers), steps)
    requires var s := After(Opened(maxWorkers), steps); i < |s.jobs| && s.jobs[i].handed && forall pc <- s.workers :: pc.Exited?
    ensures var job := After(Opened(maxWorkers), steps).jobs[i]; Terminal(job.status) && (job.completed || job.status == Cancelled)
  {
    var s := After(Opened(maxWorkers), steps);
    OpenedCounts(maxWorkers);
    RunCounts(Opened(maxWorkers), steps);
    OpenedIsTracked(maxWorkers);
    RunKeeps(Opened(maxWorkers), steps);
    CountUpdate(s.workers, 0, s.workers[0], HasExited);
    assert s.workers[0] in s.workers;
    SomeoneLeft(s.workers);
    NoWorkLeft(s.queue);
    assert JobOk(s, i) && !InQueue(s, i) && !InHand(s, i);
  }

  lemma SomeoneLeft(workers: seq<Pc>)
    requires workers != [] && workers[0].Exited?
    ensures Count(workers, HasExited) > 0
  {
  }

  lemma {:induction false} NoWorkLeft(queue: seq<Token>)
    requires Count(queue, IsWork) == 0
    ensures forall token <- queue :: token.Stop?
    decreases |queue|
  {
    if queue != [] {
      NoWorkLeft(queue[1..]);
    }
  }

  /** And they do leave: once all stops are put and the queue is drained, none is still waiting for work. */
  lemma EveryWorkerIsStopped(maxWorkers: nat, steps: seq<Step>)
    requires Run(Opened(maxWorkers), steps)
    requires var s := After(Opened(maxWorkers), steps); s.stopSent && s.stops == 0 && s.queue == []
    ensures forall pc <- After(Opened(maxWorkers), steps).workers :: pc.Exited?
  {
    var s := After(Opened(maxWorkers), steps);
    OpenedCounts(maxWorkers);
    RunCounts(Opened(maxWorkers), steps);
    CountAll(s.workers, HasExited);
  }
}

/** The admission ledger a tree of subagents shares: what is reserved, what is live, and what has been spent. */
module TreeBudget {
  import opened Outcomes

  /** A cap of zero means no cap. */
  datatype Caps = Caps(tokens: int, usd: real, concurrent: int, nodes: int, seconds: real)

  /** A lease that has not been settled. */
  datatype Held = Held(id: nat, tokens: nat, usd: real)

  datatype State = State(caps: Caps, deadline: Option<real>, reservedTokens: int, reservedUsd: real, active: int, nodes: int,
                         live: seq<Held>)

  datatype Refusal = TokensRequired | UsdRequired | DeadlineExceeded | ConcurrentLimit | NodeLimit | TokensExceeded | UsdExceeded

  function AtLeastZero(n: int): nat {
    if n > 0 then n else 0
  }

  function AtLeastNothing(x: real): (r: real)
    ensures r >= 0.0
  {
    if x > 0.0 then x else 0.0
  }

  function LiveTokens(live: seq<Held>): nat {
    if live == [] then 0 else live[0].tokens + LiveTokens(live[1..])
  }

  function LiveUsd(live: seq<Held>): real {
    if live == [] then 0.0 else live[0].usd + LiveUsd(live[1..])
  }

  function Without(live: seq<Held>, id: nat): seq<Held> {
    if live == [] then [] else if live[0].id == id then live[1..] else [live[0]] + Without(live[1..], id)
  }

  function DeadlineFrom(caps: Caps, now: real): Option<real> {
    if caps.seconds > 0.0 then Some(now + caps.seconds) else None
  }

  function Opened(caps: Caps, now: real): State {
    State(caps, DeadlineFrom(caps, now), 0, 0.0, 0, 0, [])
  }

  /** A new root task: leases of detached children keep counting. */
  function Begun(s: State, now: real): State {
    s.(nodes := 0, reservedTokens := LiveTokens(s.live), reservedUsd := LiveUsd(s.live), deadline := DeadlineFrom(s.caps, now))
  }

  function WhyRefused(s: State, tokens: nat, usd: real, now: real): Option<Refusal> {
    var caps := s.caps;
    if caps.tokens != 0 && tokens == 0 then Some(TokensRequired)
    else if caps.usd != 0.0 && usd == 0.0 then Some(UsdRequired)
    else if s.deadline.Some? && now >= s.deadline.value then Some(DeadlineExceeded)
    else if caps.concurrent != 0 && s.active >= caps.concurrent then Some(ConcurrentLimit)
    else if caps.nodes != 0 && s.nodes >= caps.nodes then Some(NodeLimit)
    else if caps.tokens != 0 && s.reservedTokens + tokens > caps.tokens then Some(TokensExceeded)
    else if caps.usd != 0.0 && s.reservedUsd + usd > caps.usd then Some(UsdExceeded)
    else None
  }

  function Reserved(s: State, id: nat, tokens: int, usd: real, now: real): Result<State, Refusal> {
    var (t, u) := (AtLeastZero(tokens), AtLeastNothing(usd));
    match WhyRefused(s, t, u, now)
    case Some(refusal) => Err(refusal)
    case None =>
      Ok(s.(active := s.active + 1, nodes := s.nodes + 1, reservedTokens := s.reservedTokens + t, reservedUsd := s.reservedUsd + u,
            live := s.live + [Held(id, t, u)]))
  }

  /** What a settlement reports; nothing reported means what was reserved. */
  datatype Actual = Actual(tokens: Option<int>, usd: Option<real>)

  function SpentTokens(held: Held, actual: Actual): nat {
    match actual.tokens case None => held.tokens case Some(n) => AtLeastZero(n)
  }

  function SpentUsd(held: Held, actual: Actual): real {
    match actual.usd case None => held.usd case Some(x) => AtLeastNothing(x)
  }

  /** The locked part of a settlement, whoever runs it. */
  function Settled(s: State, held: Held, actual: Actual): State {
    s.(reservedTokens := s.reservedTokens + SpentTokens(held, actual) - held.tokens,
       reservedUsd := s.reservedUsd + SpentUsd(held, actual) - held.usd,
       active := s.active - 1, live := Without(s.live, held.id))
  }

  class Budget {
    const caps: Caps
    var deadline: Option<real>
    var reservedTokens: int
    var reservedUsd: real
    var active: int
    var nodes: int
    var live: seq<Held>
    var issued: nat

    function View(): State
      reads this
    {
      State(caps, deadline, reservedTokens, reservedUsd, active, nodes, live)
    }

    constructor (caps: Caps, now: real)
      ensures View() == Opened(caps, now) && issued == 0
    {
      this.caps := caps;
      deadline := if caps.seconds > 0.0 then Some(now + caps.seconds) else None;
      reservedTokens, reservedUsd, active, nodes, live, issued := 0, 0.0, 0, 0, [], 0;
    }

    method BeginTree(now: real)
      modifies this
      ensures View() == Begun(old(View()), now) && issued == old(issued)
    {
      nodes := 0;
      var tokens: nat, usd, i := 0, 0.0, 0;
      while i < |live|
        invariant 0 <= i <= |live| && live == old(live)
        invariant tokens + LiveTokens(live[i..]) == LiveTokens(live)
        invariant usd + LiveUsd(live[i..]) == LiveUsd(live)
      {
        assert live[i..][1..] == live[i + 1..];
        tokens, usd, i := tokens + live[i].tokens, usd + live[i].usd, i + 1;
      }
      reservedTokens, reservedUsd := tokens, usd;
      deadline := if caps.seconds > 0.0 then Some(now + caps.seconds) else None;
    }

    method Reserve(tokens: int, usd: real, now: real) returns (result: Result<Lease, Refusal>)
      modifies this
      ensures match Reserved(old(View()), old(issued), tokens, usd, now)
        case Err(refusal) => result == Err(refusal) && View() == old(View()) && issued == old(issued)
        case Ok(s) =>
          && View() == s && issued == old(issued) + 1
          && result.Ok? && fresh(result.value) && result.value.budget == this && !result.value.released
          && result.value.held == Held(old(issued), AtLeastZero(tokens), AtLeastNothing(usd))
    {
      var t, u := AtLeastZero(tokens), AtLeastNothing(usd);
      if caps.tokens != 0 && t == 0 { return Err(TokensRequired); }
      if caps.usd != 0.0 && u == 0.0 { return Err(UsdRequired); }
      if deadline.Some? && now >= deadline.value { return Err(DeadlineExceeded); }
      if caps.concurrent != 0 && active >= caps.concurrent { return Err(ConcurrentLimit); }
      if caps.nodes != 0 && nodes >= caps.nodes { return Err(NodeLimit); }
      if caps.tokens != 0 && reservedTokens + t > caps.tokens { return Err(TokensExceeded); }
      if caps.usd != 0.0 && reservedUsd + u > caps.usd { return Err(UsdExceeded); }
      active := active + 1;
      nodes := nodes + 1;
      reservedTokens := reservedTokens + t;
      reservedUsd := reservedUsd + u;
      var lease := new Lease(this, issued, t, u);
      live := live + [lease.held];
      issued := issued + 1;
      result := Ok(lease);
    }
  }

  class Lease {
    const budget: Budget
    const held: Held
    var released: bool

    constructor (budget: Budget, id: nat, tokens: nat, usd: real)
      ensures this.budget == budget && held == Held(id, tokens, usd) && !released
    {
      this.budget, held, released := budget, Held(id, tokens, usd), false;
    }

    method Settle(actual: Actual)
      modifies this, budget
      ensures released
      ensures budget.View() == if old(released) then old(budget.View()) else Settled(old(budget.View()), held, actual)
    {
      if released { return; }
      var tokens := match actual.tokens case None => held.tokens case Some(n) => AtLeastZero(n);
      var usd := match actual.usd case None => held.usd case Some(x) => AtLeastNothing(x);
      budget.reservedTokens := budget.reservedTokens + (tokens - held.tokens);
      budget.reservedUsd := budget.reservedUsd + (usd - held.usd);
      budget.active := budget.active - 1;
      budget.live := Without(budget.live, held.id);
      released := true;
    }
  }

  // -- whole runs ------------------------------------------------------------------------------

  /** Threads share the ledger. A settlement looks at its lease before it takes the lock, so it is two steps. */
  datatype Step =
    | BeginTree(now: real)
    | Reserve(tokens: int, usd: real, now: real)
    | Look(thread: nat, held: Held, actual: Actual)
    | Apply(thread: nat)

  datatype Settling = Settling(held: Held, actual: Actual)

  /** The ledger, the settlements between look and lock, the ids given out, the ids released, and what has been spent
      since the tree began by leases that are no longer live. */
  datatype World = World(state: State, settling: map<nat, Settling>, issued: nat, released: set<nat>, spentTokens: int, spentUsd: real)

  function Start(caps: Caps, now: real): World {
    World(Opened(caps, now), map[], 0, {}, 0, 0.0)
  }

  function Do(w: World, step: Step): World {
    match step
    case BeginTree(now) => w.(state := Begun(w.state, now), spentTokens := 0, spentUsd := 0.0)
    case Reserve(tokens, usd, now) =>
      (match Reserved(w.state, w.issued, tokens, usd, now) case Ok(s) => w.(state := s, issued := w.issued + 1) case Err(_) => w)
    case Look(thread, held, actual) =>
      if held.id in w.released then w else w.(settling := w.settling[thread := Settling(held, actual)])
    case Apply(thread) =>
      if thread !in w.settling then w
      else
        var Settling(held, actual) := w.settling[thread];
        w.(state := Settled(w.state, held, actual), settling := w.settling - {thread}, released := w.released + {held.id},
           spentTokens := w.spentTokens + SpentTokens(held, actual), spentUsd := w.spentUsd + SpentUsd(held, actual))
  }

  /** A thread settles one lease at a time, and only a lease it was given. */
  ghost predicate Possible(w: World, step: Step) {
    step.Look? ==> step.thread !in w.settling && (step.held.id in w.released || step.held in w.state.live)
  }

  /** No second settlement starts on a lease while one is under way. */
  ghost predicate Alone(w: World, step: Step) {
    step.Look? ==> forall thread <- w.settling :: w.settling[thread].held.id != step.held.id
  }

  ghost predicate Run(w: World, steps: seq<Step>)
    decreases |steps|
  {
    steps == [] || (Possible(w, steps[0]) && Alone(w, steps[0]) && Run(Do(w, steps[0]), steps[1..]))
  }

  function After(w: World, steps: seq<Step>): World
    decreases |steps|
  {
    if steps == [] then w else After(Do(w, steps[0]), steps[1..])
  }

  // -- conservation ----------------------------------------------------------------------------

  /** The counters are exactly the live leases and what was settled since the tree began. */
  ghost predicate Conserved(w: World) {
    && w.state.active == |w.state.live|
    && w.state.reservedTokens == LiveTokens(w.state.live) + w.spentTokens
    && w.state.reservedUsd == LiveUsd(w.state.live) + w.spentUsd
  }

  ghost predicate Distinct(live: seq<Held>) {
    forall i, j | 0 <= i < j < |live| :: live[i].id != live[j].id
  }

  ghost predicate Traced(w: World) {
    && Distinct(w.state.live)
    && (forall held <- w.state.live :: held.id < w.issued && held.id !in w.released)
    && (forall id <- w.released :: id < w.issued)
    && (forall thread <- w.settling :: w.settling[thread].held in w.state.live)
    && (forall a <- w.settling, b <- w.settling :: w.settling[a].held.id == w.settling[b].held.id ==> a == b)
  }

  lemma {:induction false} LiveGrows(live: seq<Held>, held: Held)
    ensures LiveTokens(live + [held]) == LiveTokens(live) + held.tokens
    ensures LiveUsd(live + [held]) == LiveUsd(live) + held.usd
    decreases |live|
  {
    if live == [] {
      assert live + [held] == [held];
    } else {
      assert (live + [held])[1..] == live[1..] + [held];
      LiveGrows(live[1..], held);
    }
  }

  lemma {:induction false} LiveShrinks(live: seq<Held>, held: Held)
    requires Distinct(live) && held in live
    ensures LiveTokens(Without(live, held.id)) == LiveTokens(live) - held.tokens
    ensures LiveUsd(Without(live, held.id)) == LiveUsd(live) - held.usd
    ensures |Without(live, held.id)| == |live| - 1
    decreases |live|
  {
    if live[0].id == held.id {
      assert live[0] == held;
    } else {
      LiveShrinks(live[1..], held);
    }
  }

  lemma RestDiffers(live: seq<Held>)
    requires Distinct(live) && live != []
    ensures forall held <- live[1..] :: held.id != live[0].id
  {
    forall held <- live[1..] ensures held.id != live[0].id {
      var k :| 0 <= k < |live[1..]| && live[1..][k] == held;
      assert live[k + 1] == held;
    }
  }

  lemma {:induction false} OthersRemain(live: seq<Held>, id: nat)
    requires Distinct(live)
    ensures forall held :: held in Without(live, id) <==> held in live && held.id != id
    decreases |live|
  {
    if live != [] {
      OthersRemain(live[1..], id);
      if live[0].id == id {
        RestDiffers(live);
      }
      assert live == [live[0]] + live[1..];
    }
  }

  lemma {:induction false} OthersDiffer(live: seq<Held>, id: nat)
    requires Distinct(live)
    ensures Distinct(Without(live, id))
    decreases |live|
  {
    if live != [] && live[0].id != id {
      var rest := Without(live[1..], id);
      OthersDiffer(live[1..], id);
      OthersRemain(live[1..], id);
      RestDiffers(live);
      forall k | 0 <= k < |rest| ensures rest[k].id != live[0].id {
        assert rest[k] in live[1..];
      }
    }
  }

  lemma OthersStay(live: seq<Held>, id: nat)
    requires Distinct(live)
    ensures Distinct(Without(live, id))
    ensures forall held :: held in Without(live, id) <==> held in live && held.id != id
  {
    OthersRemain(live, id);
    OthersDiffer(live, id);
  }

  lemma ApplyKeeps(w: World, thread: nat)
    requires Traced(w) && Conserved(w)
    ensures Traced(Do(w, Apply(thread))) && Conserved(Do(w, Apply(thread)))
  {
    if thread in w.settling {
      LiveShrinks(w.state.live, w.settling[thread].held);
      ApplyTraces(w, thread);
    }
  }

  lemma ApplyTraces(w: World, thread: nat)
    requires Traced(w) && thread in w.settling
    ensures Traced(Do(w, Apply(thread)))
  {
    var held, t := w.settling[thread].held, Do(w, Apply(thread));
    OthersStay(w.state.live, held.id);
    forall other <- t.settling ensures t.settling[other].held in t.state.live {
      assert t.settling[other] == w.settling[other] && w.settling[other].held.id != held.id;
    }
  }

  lemma LookKeeps(w: World, step: Step)
    requires Traced(w) && Conserved(w) && Possible(w, step) && Alone(w, step) && step.Look?
    ensures Traced(Do(w, step)) && Conserved(Do(w, step))
  {
    var t := Do(w, step);
    forall a <- t.settling, b <- t.settling | t.settling[a].held.id == t.settling[b].held.id ensures a == b {
      assert a in w.settling ==> t.settling[a] == w.settling[a];
      assert b in w.settling ==> t.settling[b] == w.settling[b];
    }
  }

  lemma StepKeeps(w: World, step: Step)
    requires Traced(w) && Conserved(w) && Possible(w, step) && Alone(w, step)
    ensures Traced(Do(w, step)) && Conserved(Do(w, step))
  {
    match step
    case BeginTree(_) =>
    case Reserve(tokens, usd, now) => LiveGrows(w.state.live, Held(w.issued, AtLeastZero(tokens), AtLeastNothing(usd)));
    case Look(_, _, _) => LookKeeps(w, step);
    case Apply(thread) => ApplyKeeps(w, thread);
  }

  /** Over every run in which no two settlements of one lease overlap, nothing is lost or counted twice. */
  lemma {:induction false} RunConserves(w: World, steps: seq<Step>)
    requires Traced(w) && Conserved(w) && Run(w, steps)
    ensures Traced(After(w, steps)) && Conserved(After(w, steps))
    decreases |steps|
  {
    if steps != [] {
      StepKeeps(w, steps[0]);
      RunConserves(Do(w, steps[0]), steps[1..]);
    }
  }

  lemma NewBudgetConserves(caps: Caps, now: real, steps: seq<Step>)
    requires Run(Start(caps, now), steps)
    ensures Conserved(After(Start(caps, now), steps))
  {
    RunConserves(Start(caps, now), steps);
  }

  /** What one settlement of a pair leaves of the other: its lease is gone, and only it still thinks otherwise. */
  ghost predicate Orphaned(w: World, thread: nat) {
    && Distinct(w.state.live)
    && (forall held <- w.state.live :: held.id < w.issued && held.id !in w.released)
    && (forall id <- w.released :: id < w.issued)
    && thread in w.settling && w.settling[thread].held.id in w.released
    && (forall other <- w.settling | other != thread :: w.settling[other].held in w.state.live)
    && (forall a <- w.settling, b <- w.settling | a != thread && b != thread :: w.settling[a].held.id == w.settling[b].held.id ==> a == b)
  }

  lemma FirstOfTwo(w: World, a: nat, b: nat)
    requires Conserved(w) && a != b && a in w.settling && b in w.settling
    requires Traced(w.(settling := w.settling - {b})) && w.settling[a].held == w.settling[b].held
    ensures Conserved(Do(w, Apply(a))) && Orphaned(Do(w, Apply(a)), b)
  {
    var held := w.settling[a].held;
    var rest := w.settling - {b};
    assert a in rest && rest[a].held in w.state.live;
    LiveShrinks(w.state.live, held);
    FirstOrphans(w, a, b);
  }

  lemma FirstOrphans(w: World, a: nat, b: nat)
    requires a != b && a in w.settling && b in w.settling
    requires Traced(w.(settling := w.settling - {b})) && w.settling[a].held == w.settling[b].held && w.settling[a].held in w.state.live
    ensures Orphaned(Do(w, Apply(a)), b)
  {
    OthersStay(w.state.live, w.settling[a].held.id);
    FirstLeavesOthers(w, a, b);
  }

  lemma FirstLeavesOthers(w: World, a: nat, b: nat)
    requires a != b && a in w.settling && b in w.settling && Traced(w.(settling := w.settling - {b}))
    ensures var t := Do(w, Apply(a));
      && (forall other <- t.settling | other != b :: t.settling[other].held in t.state.live)
      && (forall x <- t.settling, y <- t.settling | x != b && y != b :: t.settling[x].held.id == t.settling[y].held.id ==> x == y)
  {
    var held, rest, t := w.settling[a].held, w.settling - {b}, Do(w, Apply(a));
    OthersStay(w.state.live, held.id);
    assert a in rest;
    forall other <- t.settling | other != b ensures t.settling[other].held in t.state.live {
      assert other in rest && rest[other] == w.settling[other] && rest[other].held.id != held.id;
    }
    forall x <- t.settling, y <- t.settling | x != b && y != b && t.settling[x].held.id == t.settling[y].held.id ensures x == y {
      assert x in rest && y in rest;
    }
  }

  lemma OrphanStays(w: World, thread: nat, step: Step)
    requires Orphaned(w, thread) && Conserved(w) && Possible(w, step) && Alone(w, step) && step != Apply(thread)
    ensures Orphaned(Do(w, step), thread) && Conserved(Do(w, step))
  {
    match step
    case BeginTree(_) =>
    case Reserve(tokens, usd, now) => LiveGrows(w.state.live, Held(w.issued, AtLeastZero(tokens), AtLeastNothing(usd)));
    case Look(_, _, _) => OrphanLooks(w, thread, step);
    case Apply(other) => OrphanApplies(w, thread, other);
  }

  lemma OrphanLooks(w: World, thread: nat, step: Step)
    requires Orphaned(w, thread) && Conserved(w) && Possible(w, step) && Alone(w, step) && step.Look?
    ensures Orphaned(Do(w, step), thread) && Conserved(Do(w, step))
  {
    var t := Do(w, step);
    forall a <- t.settling, b <- t.settling | a != thread && b != thread && t.settling[a].held.id == t.settling[b].held.id ensures a == b {
      assert a in w.settling ==> t.settling[a] == w.settling[a];
      assert b in w.settling ==> t.settling[b] == w.settling[b];
    }
  }

  lemma OrphanApplies(w: World, thread: nat, other: nat)
    requires Orphaned(w, thread) && Conserved(w) && other != thread
    ensures Orphaned(Do(w, Apply(other)), thread) && Conserved(Do(w, Apply(other)))
  {
    if other in w.settling {
      var held := w.settling[other].held;
      LiveShrinks(w.state.live, held);
      OrphanKeepsOthers(w, thread, other);
    }
  }

  lemma OrphanKeepsOthers(w: World, thread: nat, other: nat)
    requires Orphaned(w, thread) && other != thread && other in w.settling
    ensures Orphaned(Do(w, Apply(other)), thread)
  {
    var held, t := w.settling[other].held, Do(w, Apply(other));
    OthersStay(w.state.live, held.id);
    forall x <- t.settling | x != thread ensures t.settling[x].held in t.state.live {
      assert t.settling[x] == w.settling[x] && w.settling[x].held.id != held.id;
    }
  }

  lemma {:induction false} OrphanRuns(w: World, thread: nat, steps: seq<Step>)
    requires Orphaned(w, thread) && Conserved(w) && Run(w, steps) && Apply(thread) !in steps
    ensures Orphaned(After(w, steps), thread) && Conserved(After(w, steps))
    decreases |steps|
  {
    if steps != [] {
      assert steps[0] in steps;
      OrphanStays(w, thread, steps[0]);
      OrphanRuns(Do(w, steps[0]), thread, steps[1..]);
    }
  }

  /** The condition cannot be dropped: of two settlements that both looked at a lease before either took the lock, the
      second always leaves the ledger one child short, whatever is done in between. */
  lemma OverlapBreaks(w: World, a: nat, b: nat, between: seq<Step>)
    requires Conserved(w) && a != b && a in w.settling && b in w.settling
    requires Traced(w.(settling := w.settling - {b})) && w.settling[a].held == w.settling[b].held
    requires Run(Do(w, Apply(a)), between) && Apply(b) !in between
    ensures var t := Do(After(Do(w, Apply(a)), between), Apply(b));
      t.state.active == |t.state.live| - 1 && !Conserved(t)
  {
    FirstOfTwo(w, a, b);
    OrphanRuns(Do(w, Apply(a)), b, between);
    var t := After(Do(w, Apply(a)), between);
    NothingToRemove(t.state.live, t.settling[b].held.id);
  }

  lemma {:induction false} NothingToRemove(live: seq<Held>, id: nat)
    requires forall held <- live :: held.id != id
    ensures Without(live, id) == live
    decreases |live|
  {
    if live != [] {
      NothingToRemove(live[1..], id);
    }
  }

  /** Whatever is admitted fits under every cap, with the leases of earlier trees counted in. */
  lemma AdmittedFits(w: World, tokens: int, usd: real, now: real)
    requires Traced(w) && Conserved(w)
    requires Reserved(w.state, w.issued, tokens, usd, now).Ok?
    ensures var t := Do(w, Reserve(tokens, usd, now));
      var caps := t.state.caps;
      && (caps.tokens != 0 ==> LiveTokens(t.state.live) + t.spentTokens <= caps.tokens)
      && (caps.usd != 0.0 ==> LiveUsd(t.state.live) + t.spentUsd <= caps.usd)
      && (caps.concurrent != 0 ==> |t.state.live| <= caps.concurrent)
      && (caps.nodes != 0 ==> t.state.nodes <= caps.nodes)
      && (t.state.deadline.Some? ==> now < t.state.deadline.value)
  {
    StepKeeps(w, Reserve(tokens, usd, now));
  }

  /** And two settlements can overlap: one child, settled by two threads that both looked first. */
  lemma OverlapIsReachable(tokens: nat, now: real, actual: Actual)
    ensures var held := Held(0, tokens, 0.0);
      var reserved := Do(Start(Caps(0, 0.0, 0, 0, 0.0), now), Reserve(tokens, 0.0, now));
      var first, second := Look(0, held, actual), Look(1, held, actual);
      && Conserved(reserved) && Possible(reserved, first) && Possible(Do(reserved, first), second)
      && !Alone(Do(reserved, first), second)
      && Do(Do(Do(Do(reserved, first), second), Apply(0)), Apply(1)).state.active == -1
  {
    var held := Held(0, tokens, 0.0);
    var reserved := Do(Start(Caps(0, 0.0, 0, 0, 0.0), now), Reserve(tokens, 0.0, now));
    LiveGrows([], held);
    assert reserved.state.live == [] + [held] == [held];
    var looked := Do(Do(reserved, Look(0, held, actual)), Look(1, held, actual));
    assert looked.settling - {1} == map[0 := Settling(held, actual)];
    OverlapBreaks(looked, 0, 1, []);
    LiveShrinks([held], held);
  }

  // -- when a child is admitted, and what settling leaves ------------------------------------

  /** A cap that is set leaves room for `more` on top of `used`. */
  predicate FitsUnder(cap: int, used: int, more: int) {
    cap == 0 || used + more <= cap
  }

  /** A child is admitted exactly if it asks for something of every capped resource, the tree is in time, and every cap
      leaves room; negative requests count as none. */
  lemma ReservedIff(s: State, id: nat, tokens: int, usd: real, now: real)
    ensures var (t, u) := (if tokens < 0 then 0 else tokens, if usd < 0.0 then 0.0 else usd);
      var r := Reserved(s, id, tokens, usd, now);
      && (r.Ok? <==>
            && (s.caps.tokens != 0 ==> t > 0) && (s.caps.usd != 0.0 ==> u > 0.0)
            && (s.deadline.Some? ==> now < s.deadline.value)
            && FitsUnder(s.caps.concurrent, s.active, 1) && FitsUnder(s.caps.nodes, s.nodes, 1)
            && FitsUnder(s.caps.tokens, s.reservedTokens, t)
            && (s.caps.usd == 0.0 || s.reservedUsd + u <= s.caps.usd))
      && (r.Ok? ==>
            r.value == s.(active := s.active + 1, nodes := s.nodes + 1, reservedTokens := s.reservedTokens + t,
                          reservedUsd := s.reservedUsd + u, live := s.live + [Held(id, t, u)]))
  {
  }

  /** A new root task starts its clock and its count of nodes afresh; what is live stays reserved. */
  lemma BegunMeans(s: State, now: real)
    ensures var t := Begun(s, now);
      && (t.nodes, t.active, t.live, t.caps) == (0, s.active, s.live, s.caps)
      && t.reservedTokens == LiveTokens(s.live) && t.reservedUsd == LiveUsd(s.live)
      && t.deadline == if s.caps.seconds > 0.0 then Some(now + s.caps.seconds) else None
  {
  }

  /** Settling gives back what was reserved and takes what was spent: what was reported, or, without a report, all of it. */
  lemma SettledMeans(s: State, held: Held, actual: Actual)
    ensures var t := Settled(s, held, actual);
      && t.active == s.active - 1 && t.nodes == s.nodes && t.deadline == s.deadline && t.caps == s.caps
      && (actual.tokens == None ==> t.reservedTokens == s.reservedTokens)
      && (actual.tokens.Some? ==>
            t.reservedTokens == s.reservedTokens - held.tokens + if actual.tokens.value < 0 then 0 else actual.tokens.value)
      && (actual.usd == None ==> t.reservedUsd == s.reservedUsd)
      && (actual.usd.Some? ==> t.reservedUsd == s.reservedUsd - held.usd + if actual.usd.value < 0.0 then 0.0 else actual.usd.value)
      && (held in s.live ==> |t.live| == |s.live| - 1)
  {
    if held in s.live {
      WithoutShrinks(s.live, held);
    }
  }

  lemma {:induction false} WithoutShrinks(live: seq<Held>, held: Held)
    requires held in live
    ensures |Without(live, held.id)| == |live| - 1
    decreases |live|
  {
    if live[0].id != held.id {
      WithoutShrinks(live[1..], held);
    }
  }
}

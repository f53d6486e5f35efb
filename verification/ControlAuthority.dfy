/** Who controls the browser: leases that expire, epochs that never repeat, and sequence numbers that fence stale commands. */
module ControlAuthority {
  import opened Outcomes

  type Actor = string

  datatype ActorKind = Human | Agent | Tool

  datatype Lease = Lease(owner: Actor, kind: ActorKind, epoch: nat, expires: real)

  datatype State = State(lease: Option<Lease>, epoch: nat, sequence: int)

  datatype Refusal = InvalidActor | OwnedByAnother | StaleOrNotOwned | StaleSequence | NotTheOwner

  /** A lease that has run out is dropped by whoever looks first. */
  function Looked(s: State, now: real): State {
    if s.lease.Some? && now >= s.lease.value.expires then State(None, s.epoch, 0) else s
  }

  function Acquired(s: State, actor: Actor, kind: Option<ActorKind>, now: real, until: real): (State, Result<Lease, Refusal>) {
    if actor == "" || kind.None? then (s, Err(InvalidActor))
    else
      var t := Looked(s, now);
      match t.lease
      case Some(held) =>
        if held.owner != actor then (t, Err(OwnedByAnother))
        else (t.(lease := Some(held.(expires := until))), Ok(held.(expires := until)))
      case None =>
        var lease := Lease(actor, kind.value, t.epoch + 1, until);
        (State(Some(lease), t.epoch + 1, 0), Ok(lease))
  }

  function Authorized(s: State, actor: Actor, epoch: int, sequence: Option<int>, now: real, until: real): (State, Option<Refusal>) {
    var t := Looked(s, now);
    if t.lease.None? || t.lease.value.owner != actor || t.lease.value.epoch != epoch then (t, Some(StaleOrNotOwned))
    else if sequence.Some? && sequence.value <= t.sequence then (t, Some(StaleSequence))
    else
      (State(Some(t.lease.value.(expires := until)), t.epoch, if sequence.Some? then sequence.value else t.sequence), None)
  }

  function Released(s: State, actor: Actor, epoch: int, now: real, until: real): (State, Option<Refusal>) {
    var (t, refusal) := Authorized(s, actor, epoch, None, now, until);
    (if refusal.None? then State(None, t.epoch, 0) else t, refusal)
  }

  function HandedOff(s: State, actor: Actor, next: Actor, kind: Option<ActorKind>, now: real, until: real): (State, Option<Refusal>) {
    if next == "" || kind.None? then (s, Some(InvalidActor))
    else
      var t := Looked(s, now);
      if t.lease.None? || t.lease.value.owner != actor then (t, Some(NotTheOwner))
      else (State(Some(Lease(next, kind.value, t.epoch + 1, until)), t.epoch + 1, 0), None)
  }

  /** The authority. `now` and `until` are the readings of the clock, the second with the lease duration added. */
  class BrowserControlAuthority {
    var lease: Option<Lease>
    var epoch: nat
    var sequence: int

    function View(): State
      reads this
    {
      State(lease, epoch, sequence)
    }

    constructor ()
      ensures View() == State(None, 0, 0)
    {
      lease, epoch, sequence := None, 0, 0;
    }

    method Active(now: real) returns (current: Option<Lease>)
      modifies this
      ensures View() == Looked(old(View()), now) && current == lease
    {
      if lease.Some? && now >= lease.value.expires {
        lease := None;
        sequence := 0;
      }
      current := lease;
    }

    method Acquire(actor: Actor, kind: Option<ActorKind>, now: real, until: real) returns (result: Result<Lease, Refusal>)
      modifies this
      ensures (View(), result) == Acquired(old(View()), actor, kind, now, until)
    {
      if actor == "" || kind.None? { return Err(InvalidActor); }
      var current := Active(now);
      if current.Some? {
        if current.value.owner == actor {
          var refreshed := Lease(current.value.owner, current.value.kind, current.value.epoch, until);
          lease := Some(refreshed);
          return Ok(refreshed);
        }
        return Err(OwnedByAnother);
      }
      epoch := epoch + 1;
      var granted := Lease(actor, kind.value, epoch, until);
      lease := Some(granted);
      sequence := 0;
      result := Ok(granted);
    }

    method Authorize(actor: Actor, epoch': int, sequence': Option<int>, now: real, until: real) returns (refusal: Option<Refusal>)
      modifies this
      ensures (View(), refusal) == Authorized(old(View()), actor, epoch', sequence', now, until)
    {
      var current := Active(now);
      if current.None? || current.value.owner != actor || current.value.epoch != epoch' { return Some(StaleOrNotOwned); }
      if sequence'.Some? {
        if sequence'.value <= sequence { return Some(StaleSequence); }
        sequence := sequence'.value;
      }
      lease := Some(Lease(current.value.owner, current.value.kind, current.value.epoch, until));
      refusal := None;
    }

    method Release(actor: Actor, epoch': int, now: real, until: real) returns (refusal: Option<Refusal>)
      modifies this
      ensures (View(), refusal) == Released(old(View()), actor, epoch', now, until)
    {
      refusal := Authorize(actor, epoch', None, now, until);
      if refusal.None? {
        lease := None;
        sequence := 0;
      }
    }

    method Handoff(actor: Actor, next: Actor, kind: Option<ActorKind>, now: real, until: real) returns (refusal: Option<Refusal>)
      modifies this
      ensures (View(), refusal) == HandedOff(old(View()), actor, next, kind, now, until)
    {
      if next == "" || kind.None? { return Some(InvalidActor); }
      var current := Active(now);
      if current.None? || current.value.owner != actor { return Some(NotTheOwner); }
      epoch := epoch + 1;
      lease := Some(Lease(next, kind.value, epoch, until));
      sequence := 0;
      refusal := None;
    }
  }

  // -- whole runs -------------------------------------------------------------------------

  datatype Call =
    | Acquire(actor: Actor, kind: Option<ActorKind>)
    | Authorize(actor: Actor, epoch: int, sequence: Option<int>)
    | Release(actor: Actor, epoch: int)
    | Handoff(actor: Actor, next: Actor, kind: Option<ActorKind>)
    | Current

  /** A call, and what the clock said during it: nothing is asked of the clock, not even that it moves forward. */
  datatype Timed = Timed(call: Call, now: real, until: real)

  /** A sequenced command that was let through. */
  datatype Command = Command(actor: Actor, epoch: nat, sequence: int)

  /** The authority, every command it let through, and every epoch it gave out with its owner. */
  datatype World = World(state: State, commands: seq<Command>, grants: seq<(nat, Actor)>)

  function Start(): World {
    World(State(None, 0, 0), [], [])
  }

  function Do(w: World, timed: Timed): World {
    var Timed(call, now, until) := timed;
    match call
    case Acquire(actor, kind) =>
      var (s, result) := Acquired(w.state, actor, kind, now, until);
      World(s, w.commands, match result case Ok(lease) => w.grants + [(lease.epoch, actor)] case Err(_) => w.grants)
    case Authorize(actor, epoch, sequence) =>
      var (s, refusal) := Authorized(w.state, actor, epoch, sequence, now, until);
      World(s, if refusal.None? && sequence.Some? && epoch >= 0 then w.commands + [Command(actor, epoch, sequence.value)] else w.commands,
            w.grants)
    case Release(actor, epoch) => w.(state := Released(w.state, actor, epoch, now, until).0)
    case Handoff(actor, next, kind) =>
      var (s, refusal) := HandedOff(w.state, actor, next, kind, now, until);
      World(s, w.commands, if refusal.None? then w.grants + [(s.epoch, next)] else w.grants)
    case Current => w.(state := Looked(w.state, now))
  }

  function After(w: World, calls: seq<Timed>): World
    decreases |calls|
  {
    if calls == [] then w else After(Do(w, calls[0]), calls[1..])
  }

  ghost predicate Before(a: Command, b: Command) {
    a.epoch < b.epoch || (a.epoch == b.epoch && a.sequence < b.sequence)
  }

  /** The fence: later commands carry greater (epoch, sequence) pairs. */
  ghost predicate Fenced(commands: seq<Command>) {
    forall i, j | 0 <= i < j < |commands| :: Before(commands[i], commands[j])
  }

  /** An epoch has one owner, and commands under it come from that owner. */
  ghost predicate OneOwner(commands: seq<Command>, grants: seq<(nat, Actor)>) {
    && (forall i, j | 0 <= i < j < |grants| && grants[i].0 == grants[j].0 :: grants[i].1 == grants[j].1)
    && (forall command <- commands :: (command.epoch, command.actor) in grants)
  }

  ghost predicate Guarded(w: World) {
    && Fenced(w.commands) && OneOwner(w.commands, w.grants)
    && (forall grant <- w.grants :: grant.0 <= w.state.epoch)
    && (forall command <- w.commands :: command.epoch <= w.state.epoch && command.sequence > 0)
    && w.state.sequence >= 0
    && (w.state.lease.Some? ==>
          && w.state.lease.value.epoch == w.state.epoch
          && (w.state.epoch, w.state.lease.value.owner) in w.grants
          && (forall command <- w.commands | command.epoch == w.state.epoch :: command.sequence <= w.state.sequence))
  }

  lemma GrantKeepsOwners(w: World, owner: Actor)
    requires Guarded(w) && forall grant <- w.grants :: grant.0 == w.state.epoch + 1 ==> grant.1 == owner
    ensures OneOwner(w.commands, w.grants + [(w.state.epoch + 1, owner)])
  {
    forall command <- w.commands ensures (command.epoch, command.actor) in w.grants + [(w.state.epoch + 1, owner)] {
    }
  }

  lemma RefreshKeepsOwners(w: World, owner: Actor)
    requires Guarded(w) && (w.state.epoch, owner) in w.grants
    ensures OneOwner(w.commands, w.grants + [(w.state.epoch, owner)])
  {
    var k :| 0 <= k < |w.grants| && w.grants[k] == (w.state.epoch, owner);
    forall i | 0 <= i < |w.grants| && w.grants[i].0 == w.state.epoch ensures w.grants[i].1 == owner {
    }
    forall command <- w.commands ensures (command.epoch, command.actor) in w.grants + [(w.state.epoch, owner)] {
    }
  }

  lemma LookKeepsGuard(w: World, now: real)
    requires Guarded(w)
    ensures Guarded(w.(state := Looked(w.state, now)))
  {
  }

  lemma AcquireKeepsGuard(w: World, timed: Timed)
    requires Guarded(w) && timed.call.Acquire?
    ensures Guarded(Do(w, timed))
  {
    LookKeepsGuard(w, timed.now);
    var looked := w.(state := Looked(w.state, timed.now));
    if looked.state.lease.None? {
      GrantKeepsOwners(looked, timed.call.actor);
    } else if looked.state.lease.value.owner == timed.call.actor {
      RefreshKeepsOwners(looked, timed.call.actor);
    }
  }

  lemma HandoffKeepsGuard(w: World, timed: Timed)
    requires Guarded(w) && timed.call.Handoff?
    ensures Guarded(Do(w, timed))
  {
    LookKeepsGuard(w, timed.now);
    GrantKeepsOwners(w.(state := Looked(w.state, timed.now)), timed.call.next);
  }

  lemma AuthorizeKeepsGuard(w: World, timed: Timed)
    requires Guarded(w) && timed.call.Authorize?
    ensures Guarded(Do(w, timed))
  {
    LookKeepsGuard(w, timed.now);
  }

  lemma StepKeepsGuard(w: World, timed: Timed)
    requires Guarded(w)
    ensures Guarded(Do(w, timed))
  {
    if timed.call.Acquire? {
      AcquireKeepsGuard(w, timed);
    } else if timed.call.Handoff? {
      HandoffKeepsGuard(w, timed);
    } else if timed.call.Authorize? {
      AuthorizeKeepsGuard(w, timed);
    } else {
      LookKeepsGuard(w, timed.now);
    }
  }

  lemma {:induction false} RunKeepsGuard(w: World, calls: seq<Timed>)
    requires Guarded(w)
    ensures Guarded(After(w, calls))
    decreases |calls|
  {
    if calls != [] {
      StepKeepsGuard(w, calls[0]);
      RunKeepsGuard(Do(w, calls[0]), calls[1..]);
    }
  }

  /** Whatever actors do and however the clock runs, accepted commands are fenced, and an epoch belongs to one actor. */
  lemma CommandsAreFenced(calls: seq<Timed>)
    ensures var w := After(Start(), calls); Fenced(w.commands) && OneOwner(w.commands, w.grants)
  {
    RunKeepsGuard(Start(), calls);
  }

  /** Every accepted sequenced command is recorded: no negative epoch is ever let through. */
  lemma AcceptedIsRecorded(w: World, timed: Timed)
    requires Guarded(w) && timed.call.Authorize? && timed.call.sequence.Some?
    requires Authorized(w.state, timed.call.actor, timed.call.epoch, timed.call.sequence, timed.now, timed.until).1.None?
    ensures timed.call.epoch >= 0
    ensures Do(w, timed).commands == w.commands + [Command(timed.call.actor, timed.call.epoch, timed.call.sequence.value)]
  {
  }

  // -- when a call goes through -----------------------------------------------------------

  /** The lease that is in force: nobody looked it away, and it has not run out. */
  function InForce(s: State, now: real): Option<Lease> {
    match s.lease
    case Some(lease) => if now < lease.expires then Some(lease) else None
    case None => None
  }

  /** A command is taken exactly from the owner of the lease in force, under its epoch, and with a sequence number that is
      new under it; it renews the lease and moves the number, and a refusal moves neither. */
  lemma AuthorizedIff(s: State, actor: Actor, epoch: int, sequence: Option<int>, now: real, until: real)
    ensures var (t, refusal) := Authorized(s, actor, epoch, sequence, now, until);
      var held := InForce(s, now);
      && (refusal == None <==>
            && held.Some? && held.value.owner == actor && held.value.epoch == epoch
            && (sequence.Some? ==> s.sequence < sequence.value))
      && t.epoch == s.epoch
      && (refusal == None ==>
            && t.lease == Some(held.value.(expires := until))
            && t.sequence == if sequence.Some? then sequence.value else s.sequence)
      && (refusal.Some? && held.Some? ==> t == s)
      && (refusal.Some? && held.None? ==> t.lease == None)
  {
  }

  /** Control is granted exactly when nobody else has it; under a new epoch, and from sequence zero, unless it is only renewed. */
  lemma AcquiredIff(s: State, actor: Actor, kind: Option<ActorKind>, now: real, until: real)
    ensures var (t, result) := Acquired(s, actor, kind, now, until);
      var held := InForce(s, now);
      && (result.Ok? <==> actor != "" && kind.Some? && (held.Some? ==> held.value.owner == actor))
      && (result.Ok? ==> t.lease == Some(result.value) && result.value.expires == until && result.value.owner == actor)
      && (result.Ok? && held.Some? ==> result.value == held.value.(expires := until) && t.epoch == s.epoch && t.sequence == s.sequence)
      && (result.Ok? && held.None? ==>
            result.value.kind == kind.value && result.value.epoch == t.epoch == s.epoch + 1 && t.sequence == 0)
      && (result.Err? && held.Some? ==> t == s)
      && (result.Err? ==> t.epoch == s.epoch && InForce(t, now) == held)
  {
  }

  /** Only the owner gives control up or hands it on, and a successor starts a new epoch. */
  lemma GivenUpIff(s: State, actor: Actor, epoch: int, next: Actor, kind: Option<ActorKind>, now: real, until: real)
    ensures var (t, refusal) := Released(s, actor, epoch, now, until);
      var held := InForce(s, now);
      && (refusal == None <==> held.Some? && held.value.owner == actor && held.value.epoch == epoch)
      && (refusal == None ==> t.lease == None && t.epoch == s.epoch)
      && (refusal.Some? ==> InForce(t, now) == held && t.epoch == s.epoch)
    ensures var (t, refusal) := HandedOff(s, actor, next, kind, now, until);
      var held := InForce(s, now);
      && (refusal == None <==> next != "" && kind.Some? && held.Some? && held.value.owner == actor)
      && (refusal == None ==> t == State(Some(Lease(next, kind.value, s.epoch + 1, until)), s.epoch + 1, 0))
      && (refusal.Some? ==> InForce(t, now) == held && t.epoch == s.epoch)
  {
  }
}

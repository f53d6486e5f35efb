/** A bounded cache of browser frames: content addresses, leases that protect a frame, and eviction of the oldest. */
module FrameStore {
  import opened Outcomes

  type byte = b: int | 0 <= b < 256
  type Ref = string

  datatype Limits = Limits(frame: nat, store: nat)

  datatype Blob = Blob(ref: Ref, content: seq<byte>)

  /** Blobs in the order they were stored; leases counted per address. */
  datatype State = State(blobs: seq<Blob>, leases: map<Ref, int>, current: Option<Ref>, bytes: int)

  datatype Failure = FrameTooLarge | QuotaExceeded | DigestCollision | UnknownRef

  const Empty := State([], map[], None, 0)

  predicate Leased(s: State, ref: Ref) {
    ref in s.leases && s.leases[ref] != 0
  }

  predicate Protected(s: State, blob: Blob) {
    s.current == Some(blob.ref) || Leased(s, blob.ref)
  }

  function FirstFree(s: State, i: nat): (r: Option<nat>)
    requires i <= |s.blobs|
    ensures r.Some? ==> i <= r.value < |s.blobs| && !Protected(s, s.blobs[r.value])
    ensures r.None? ==> forall k | i <= k < |s.blobs| :: Protected(s, s.blobs[k])
    decreases |s.blobs| - i
  {
    if i == |s.blobs| then None else if !Protected(s, s.blobs[i]) then Some(i) else FirstFree(s, i + 1)
  }

  function Dropped(s: State, i: nat): State
    requires i < |s.blobs|
  {
    s.(blobs := s.blobs[..i] + s.blobs[i + 1..], bytes := s.bytes - |s.blobs[i].content|)
  }

  /** Eviction, oldest first; what it evicted stays evicted when there is still no room. */
  function Evicted(s: State, limits: Limits, incoming: nat): (State, bool)
    decreases |s.blobs|
  {
    if s.bytes + incoming <= limits.store then (s, true)
    else
      match FirstFree(s, 0)
      case None => (s, false)
      case Some(i) => Evicted(Dropped(s, i), limits, incoming)
  }

  function StoredAt(blobs: seq<Blob>, ref: Ref): (r: Option<Blob>)
    ensures r.Some? ==> r.value in blobs && r.value.ref == ref
    ensures r.None? ==> forall blob <- blobs :: blob.ref != ref
  {
    if blobs == [] then None else if blobs[0].ref == ref then Some(blobs[0]) else StoredAt(blobs[1..], ref)
  }

  function Published(s: State, limits: Limits, content: seq<byte>, ref: Ref): (State, Result<bool, Failure>) {
    match StoredAt(s.blobs, ref)
    case Some(blob) =>
      if blob.content != content then (s, Err(DigestCollision)) else (s.(current := Some(ref)), Ok(false))
    case None =>
      if |content| > limits.store then (s, Err(QuotaExceeded))
      else
        var (t, room) := Evicted(s, limits, |content|);
        if !room then (t, Err(QuotaExceeded))
        else (t.(blobs := t.blobs + [Blob(ref, content)], bytes := t.bytes + |content|, current := Some(ref)), Ok(true))
  }

  function LeaseTaken(s: State, ref: Ref): Result<State, Failure> {
    if StoredAt(s.blobs, ref).None? then Err(UnknownRef)
    else Ok(s.(leases := s.leases[ref := (if ref in s.leases then s.leases[ref] else 0) + 1]))
  }

  function LeaseReturned(s: State, ref: Ref): State {
    var left := (if ref in s.leases then s.leases[ref] else 0) - 1;
    s.(leases := if left <= 0 then s.leases - {ref} else s.leases[ref := left])
  }

  function Current(s: State): Option<Blob> {
    if s.current.None? then None else StoredAt(s.blobs, s.current.value)
  }

  class BrowserFrameStore {
    const limits: Limits
    var blobs: seq<Blob>
    var leases: map<Ref, int>
    var current: Option<Ref>
    var bytes: int

    function View(): State
      reads this
    {
      State(blobs, leases, current, bytes)
    }

    constructor (limits: Limits)
      requires 0 < limits.frame <= limits.store
      ensures View() == Empty && this.limits == limits
    {
      this.limits := limits;
      blobs, leases, current, bytes := [], map[], None, 0;
    }

    method EvictFor(incoming: nat) returns (room: bool)
      modifies this`blobs, this`bytes
      ensures (View(), room) == Evicted(old(View()), limits, incoming)
    {
      while bytes + incoming > limits.store
        invariant Evicted(View(), limits, incoming) == Evicted(old(View()), limits, incoming)
        decreases |blobs|
      {
        var candidate := FirstFree(View(), 0);
        if candidate.None? {
          return false;
        }
        var i := candidate.value;
        bytes := bytes - |blobs[i].content|;
        blobs := blobs[..i] + blobs[i + 1..];
      }
      room := true;
    }

    /** The locked part of a publication; the address was computed before, and may be under a key since replaced. */
    method PublishLocked(content: seq<byte>, ref: Ref) returns (result: Result<bool, Failure>)
      modifies this
      ensures (View(), result) == Published(old(View()), limits, content, ref)
    {
      var existing := StoredAt(blobs, ref);
      if existing.Some? {
        if existing.value.content != content { return Err(DigestCollision); }
        current := Some(ref);
        return Ok(false);
      }
      if |content| > limits.store { return Err(QuotaExceeded); }
      var room := EvictFor(|content|);
      if !room { return Err(QuotaExceeded); }
      blobs := blobs + [Blob(ref, content)];
      bytes := bytes + |content|;
      current := Some(ref);
      result := Ok(true);
    }

    method Publish(content: seq<byte>, address: seq<byte> -> Ref) returns (result: Result<bool, Failure>)
      modifies this
      ensures if content == [] || |content| > limits.frame then View() == old(View()) && result == Err(FrameTooLarge)
              else (View(), result) == Published(old(View()), limits, content, address(content))
    {
      if content == [] || |content| > limits.frame { return Err(FrameTooLarge); }
      result := PublishLocked(content, address(content));
    }

    method Lease(ref: Ref) returns (result: Result<Blob, Failure>)
      modifies this`leases
      ensures match LeaseTaken(old(View()), ref)
        case Ok(s) => View() == s && result.Ok? && result.value in blobs && result.value.ref == ref
        case Err(e) => View() == old(View()) && result == Err(e)
    {
      var blob := StoredAt(blobs, ref);
      if blob.None? { return Err(UnknownRef); }
      leases := leases[ref := (if ref in leases then leases[ref] else 0) + 1];
      result := Ok(blob.value);
    }

    method Return(ref: Ref)
      modifies this`leases
      ensures View() == LeaseReturned(old(View()), ref)
    {
      leases := leases[ref := (if ref in leases then leases[ref] else 0) - 1];
      if leases[ref] <= 0 {
        leases := leases - {ref};
      }
      assert leases == LeaseReturned(old(View()), ref).leases;
    }

    method Clear()
      modifies this
      ensures View() == Empty
    {
      blobs, leases, current, bytes := [], map[], None, 0;
    }
  }

  // -- the quota ----------------------------------------------------------------------------

  function Sum(blobs: seq<Blob>): nat {
    if blobs == [] then 0 else |blobs[0].content| + Sum(blobs[1..])
  }

  /** The bytes eviction may not touch. */
  function ProtectedBytes(s: State, blobs: seq<Blob>): nat {
    if blobs == [] then 0
    else (if Protected(s, blobs[0]) then |blobs[0].content| else 0) + ProtectedBytes(s, blobs[1..])
  }

  ghost predicate DistinctRefs(blobs: seq<Blob>) {
    forall i, j | 0 <= i < j < |blobs| :: blobs[i].ref != blobs[j].ref
  }

  ghost predicate Tidy(s: State, limits: Limits) {
    && s.bytes == Sum(s.blobs) && s.bytes <= limits.store && DistinctRefs(s.blobs)
    && (s.current.Some? ==> exists blob <- s.blobs :: blob.ref == s.current.value)
    && (forall ref <- s.leases :: s.leases[ref] > 0)
  }

  lemma {:induction false} SumConcat(a: seq<Blob>, b: seq<Blob>)
    ensures Sum(a + b) == Sum(a) + Sum(b)
    decreases |a|
  {
    if a == [] {
      assert a + b == b;
    } else {
      assert (a + b)[1..] == a[1..] + b;
      SumConcat(a[1..], b);
    }
  }

  lemma {:induction false} ProtectedConcat(s: State, a: seq<Blob>, b: seq<Blob>)
    ensures ProtectedBytes(s, a + b) == ProtectedBytes(s, a) + ProtectedBytes(s, b)
    decreases |a|
  {
    if a == [] {
      assert a + b == b;
    } else {
      assert (a + b)[1..] == a[1..] + b;
      ProtectedConcat(s, a[1..], b);
    }
  }

  lemma {:induction false} ProtectedIsLess(s: State, blobs: seq<Blob>)
    ensures ProtectedBytes(s, blobs) <= Sum(blobs)
    ensures (forall blob <- blobs :: Protected(s, blob)) ==> ProtectedBytes(s, blobs) == Sum(blobs)
    decreases |blobs|
  {
    if blobs != [] {
      ProtectedIsLess(s, blobs[1..]);
    }
  }

  /** Protection depends on the leases and the current frame only. */
  lemma {:induction false} SameProtection(s: State, t: State, blobs: seq<Blob>)
    requires s.leases == t.leases && s.current == t.current
    ensures ProtectedBytes(s, blobs) == ProtectedBytes(t, blobs)
    decreases |blobs|
  {
    if blobs != [] {
      SameProtection(s, t, blobs[1..]);
    }
  }

  lemma DropKeeps(s: State, i: nat)
    requires i < |s.blobs| && s.bytes == Sum(s.blobs) && DistinctRefs(s.blobs) && !Protected(s, s.blobs[i])
    ensures var t := Dropped(s, i);
      && t.bytes == Sum(t.blobs) && DistinctRefs(t.blobs)
      && ProtectedBytes(t, t.blobs) == ProtectedBytes(s, s.blobs)
      && (forall blob <- t.blobs :: blob in s.blobs)
      && (forall blob <- s.blobs :: blob in t.blobs || blob == s.blobs[i])
  {
    var a, b, c := s.blobs[..i], [s.blobs[i]], s.blobs[i + 1..];
    assert s.blobs == a + (b + c) && b[1..] == [];
    SumConcat(a, b + c); SumConcat(b, c); SumConcat(a, c);
    ProtectedConcat(s, a, b + c); ProtectedConcat(s, b, c); ProtectedConcat(s, a, c);
    SameProtection(s, Dropped(s, i), a + c);
  }

  /** Eviction never removes a leased or current frame, keeps the count right even when it fails, and finds room
      exactly when the protected frames leave it. */
  lemma {:induction false} EvictionSparesTheProtected(s: State, limits: Limits, incoming: nat)
    requires s.bytes == Sum(s.blobs) && DistinctRefs(s.blobs)
    ensures var (t, room) := Evicted(s, limits, incoming);
      && t.leases == s.leases && t.current == s.current && t.bytes == Sum(t.blobs) && t.bytes <= s.bytes && DistinctRefs(t.blobs)
      && (forall blob <- s.blobs :: Protected(s, blob) ==> blob in t.blobs)
      && (forall blob <- t.blobs :: blob in s.blobs)
      && (room ==> t.bytes + incoming <= limits.store)
      && (room <==> ProtectedBytes(s, s.blobs) + incoming <= limits.store)
    decreases |s.blobs|
  {
    ProtectedIsLess(s, s.blobs);
    if s.bytes + incoming > limits.store && FirstFree(s, 0).Some? {
      var i := FirstFree(s, 0).value;
      DropKeeps(s, i);
      EvictionSparesTheProtected(Dropped(s, i), limits, incoming);
      forall blob <- s.blobs | Protected(s, blob) ensures Protected(Dropped(s, i), blob) && blob in Dropped(s, i).blobs {
      }
    }
  }

  /** What a publication leaves behind, whatever its address is. */
  lemma PublicationKeeps(s: State, limits: Limits, content: seq<byte>, ref: Ref)
    requires Tidy(s, limits)
    ensures var (t, result) := Published(s, limits, content, ref);
      && Tidy(t, limits)
      && (result.Ok? ==> Current(t) == Some(Blob(ref, content)))
      && (result.Err? ==> Current(t) == Current(s))
      && (forall blob <- s.blobs :: Protected(s, blob) ==> blob in t.blobs)
      && (StoredAt(s.blobs, ref).None? ==> (result.Ok? <==> ProtectedBytes(s, s.blobs) + |content| <= limits.store))
  {
    match StoredAt(s.blobs, ref)
    case Some(blob) =>
      FoundIs(s.blobs, blob);
    case None =>
      EvictionSparesTheProtected(s, limits, |content|);
      var (t, room) := Evicted(s, limits, |content|);
      CurrentSurvives(s, t);
      var added := Blob(ref, content);
      SumConcat(t.blobs, [added]);
      assert [added][1..] == [];
      FoundIs(t.blobs + [added], added);
  }

  lemma CurrentSurvives(s: State, t: State)
    requires DistinctRefs(s.blobs) && DistinctRefs(t.blobs) && t.current == s.current
    requires s.current.Some? ==> exists blob <- s.blobs :: blob.ref == s.current.value
    requires forall blob <- s.blobs :: Protected(s, blob) ==> blob in t.blobs
    ensures Current(t) == Current(s)
    ensures t.current.Some? ==> exists blob <- t.blobs :: blob.ref == t.current.value
  {
    if s.current.Some? {
      var blob := StoredAt(s.blobs, s.current.value).value;
      assert Protected(s, blob) && blob in t.blobs;
      FoundIs(t.blobs, blob);
    }
  }

  lemma {:induction false} FoundIs(blobs: seq<Blob>, blob: Blob)
    requires DistinctRefs(blobs) && blob in blobs
    ensures StoredAt(blobs, blob.ref) == Some(blob)
    decreases |blobs|
  {
    if blobs[0] != blob {
      var k :| 0 <= k < |blobs| && blobs[k] == blob;
      assert blobs[0].ref != blobs[k].ref && blobs[1..][k - 1] == blob;
      FoundIs(blobs[1..], blob);
    }
  }

  // -- whole runs: frames that readers hold ------------------------------------------------------

  datatype Step =
    | Publish(content: seq<byte>, ref: Ref)
    | Take(reader: nat, ref: Ref)
    | GiveBack(reader: nat)
    | Clear

  /** A reader inside the lease block; `era` counts the clears before it entered. */
  datatype Holding = Holding(ref: Ref, era: nat)

  datatype World = World(limits: Limits, state: State, era: nat, holders: map<nat, Holding>)

  function Do(w: World, step: Step): World {
    match step
    case Publish(content, ref) =>
      if content == [] || |content| > w.limits.frame then w else w.(state := Published(w.state, w.limits, content, ref).0)
    case Take(reader, ref) =>
      (match LeaseTaken(w.state, ref)
       case Ok(s) => w.(state := s, holders := w.holders[reader := Holding(ref, w.era)])
       case Err(_) => w)
    case GiveBack(reader) =>
      if reader !in w.holders then w
      else w.(state := LeaseReturned(w.state, w.holders[reader].ref), holders := w.holders - {reader})
    case Clear => w.(state := Empty, era := w.era + 1)
  }

  /** A reader enters once. */
  ghost predicate Possible(w: World, step: Step) {
    step.Take? ==> step.reader !in w.holders
  }

  /** Nothing is published at an address that a reader still holds from before the last clear. */
  ghost predicate Unmixed(w: World, step: Step) {
    step.Publish? ==> forall reader <- w.holders | w.holders[reader].era < w.era :: w.holders[reader].ref != step.ref
  }

  ghost predicate Run(w: World, steps: seq<Step>)
    decreases |steps|
  {
    steps == [] || (Possible(w, steps[0]) && Unmixed(w, steps[0]) && Run(Do(w, steps[0]), steps[1..]))
  }

  function After(w: World, steps: seq<Step>): World
    decreases |steps|
  {
    if steps == [] then w else After(Do(w, steps[0]), steps[1..])
  }

  function Start(limits: Limits): World {
    World(limits, Empty, 0, map[])
  }

  lemma StepKeepsTidy(w: World, step: Step)
    requires Tidy(w.state, w.limits)
    ensures Tidy(Do(w, step).state, w.limits) && Do(w, step).limits == w.limits
  {
    if step.Publish? {
      PublicationKeeps(w.state, w.limits, step.content, step.ref);
    }
  }

  /** After any steps at all: the bytes are counted right and within the quota, addresses are distinct, and the current
      frame is stored. */
  lemma {:induction false} StoreStaysTidy(w: World, steps: seq<Step>)
    requires Tidy(w.state, w.limits)
    ensures Tidy(After(w, steps).state, w.limits)
    decreases |steps|
  {
    if steps != [] {
      StepKeepsTidy(w, steps[0]);
      StoreStaysTidy(Do(w, steps[0]), steps[1..]);
    }
  }

  lemma NewStoreStaysTidy(limits: Limits, steps: seq<Step>)
    ensures Tidy(After(Start(limits), steps).state, limits)
  {
    StoreStaysTidy(Start(limits), steps);
  }

  function Readers(w: World, ref: Ref): set<nat> {
    set reader <- w.holders | w.holders[reader] == Holding(ref, w.era)
  }

  function Count(s: State, ref: Ref): int {
    if ref in s.leases then s.leases[ref] else 0
  }

  ghost predicate Stored(s: State, ref: Ref) {
    exists blob <- s.blobs :: blob.ref == ref
  }

  /** The lease counter counts the readers since the last clear, and what they hold is stored. */
  ghost predicate Held(w: World) {
    && Tidy(w.state, w.limits)
    && (forall ref :: Count(w.state, ref) == |Readers(w, ref)|)
    && (forall reader <- w.holders ::
          && w.holders[reader].era <= w.era
          && (w.holders[reader].era == w.era <==> Stored(w.state, w.holders[reader].ref)))
  }

  lemma ReadersProtect(w: World, reader: nat)
    requires Held(w) && reader in w.holders && w.holders[reader].era == w.era
    ensures Leased(w.state, w.holders[reader].ref)
  {
    var ref := w.holders[reader].ref;
    assert reader in Readers(w, ref);
    assert Count(w.state, ref) == |Readers(w, ref)|;
  }

  lemma PublishKeepsHeld(w: World, step: Step)
    requires Held(w) && Unmixed(w, step) && step.Publish?
    ensures Held(Do(w, step))
  {
    var t := Do(w, step);
    if t != w {
      PublicationKeeps(w.state, w.limits, step.content, step.ref);
      PublicationMoves(w.state, w.limits, step.content, step.ref);
      forall ref ensures Count(t.state, ref) == |Readers(t, ref)| {
        assert Readers(t, ref) == Readers(w, ref) && Count(t.state, ref) == Count(w.state, ref);
      }
      forall reader <- w.holders
        ensures w.holders[reader].era == w.era <==> Stored(t.state, w.holders[reader].ref)
      {
        if w.holders[reader].era == w.era {
          ReadersProtect(w, reader);
        }
      }
    }
  }

  lemma PublicationMoves(s: State, limits: Limits, content: seq<byte>, ref: Ref)
    requires Tidy(s, limits)
    ensures var t := Published(s, limits, content, ref).0;
      && t.leases == s.leases
      && (forall other | Stored(s, other) && Leased(s, other) :: Stored(t, other))
      && (forall other | Stored(t, other) :: Stored(s, other) || other == ref)
  {
    EvictionSparesTheProtected(s, limits, |content|);
  }

  lemma TakeKeepsHeld(w: World, step: Step)
    requires Held(w) && Possible(w, step) && step.Take?
    ensures Held(Do(w, step))
  {
    var t := Do(w, step);
    if t != w {
      forall ref ensures Count(t.state, ref) == |Readers(t, ref)| {
        TakeCounts(w, step, ref);
      }
      assert Tidy(t.state, w.limits);
    }
  }

  lemma TakeCounts(w: World, step: Step, ref: Ref)
    requires step.Take? && Possible(w, step) && LeaseTaken(w.state, step.ref).Ok? && Count(w.state, ref) == |Readers(w, ref)|
    ensures Count(Do(w, step).state, ref) == |Readers(Do(w, step), ref)|
  {
    var s, t := LeaseTaken(w.state, step.ref).value, Do(w, step);
    EnteredReaders(w, s, step.reader, step.ref, ref);
    assert t == w.(state := s, holders := w.holders[step.reader := Holding(step.ref, w.era)]);
    assert Count(s, ref) == Count(w.state, ref) + if ref == step.ref then 1 else 0;
  }

  lemma EnteredReaders(w: World, s: State, reader: nat, entered: Ref, ref: Ref)
    requires reader !in w.holders
    ensures var t := w.(state := s, holders := w.holders[reader := Holding(entered, w.era)]);
      |Readers(t, ref)| == |Readers(w, ref)| + if ref == entered then 1 else 0
  {
    var t := w.(state := s, holders := w.holders[reader := Holding(entered, w.era)]);
    assert Readers(t, ref) == Readers(w, ref) + if ref == entered then {reader} else {};
  }

  lemma GiveBackKeepsHeld(w: World, step: Step)
    requires Held(w) && step.GiveBack?
    ensures Held(Do(w, step))
  {
    var t := Do(w, step);
    if step.reader in w.holders {
      var holding := w.holders[step.reader];
      forall ref ensures Count(t.state, ref) == |Readers(t, ref)| {
        assert Count(w.state, ref) == |Readers(w, ref)|;
        if ref == holding.ref && holding.era < w.era {
          NobodyNewHolds(w, step.reader);
        }
        assert Readers(t, ref) == Readers(w, ref) - (if ref == holding.ref && holding.era == w.era then {step.reader} else {});
      }
    }
  }

  lemma NobodyNewHolds(w: World, stale: nat)
    requires Held(w) && stale in w.holders && w.holders[stale].era < w.era
    ensures Readers(w, w.holders[stale].ref) == {} && Count(w.state, w.holders[stale].ref) == 0
  {
    assert !Stored(w.state, w.holders[stale].ref);
    assert Count(w.state, w.holders[stale].ref) == |Readers(w, w.holders[stale].ref)|;
  }

  lemma ClearKeepsHeld(w: World)
    requires Held(w)
    ensures Held(Do(w, Clear))
  {
    var t := Do(w, Clear);
    forall ref ensures Count(t.state, ref) == |Readers(t, ref)| {
      assert Readers(t, ref) == {};
    }
  }

  /** In every run that does not publish at an address a reader holds from before a clear: the quota is kept, the current
      frame is stored, and a frame stays stored as long as a reader of this era holds it. */
  lemma {:induction false} HeldFramesStay(w: World, steps: seq<Step>)
    requires Held(w) && Run(w, steps)
    ensures Held(After(w, steps))
    decreases |steps|
  {
    if steps != [] {
      var step := steps[0];
      if step.Publish? {
        PublishKeepsHeld(w, step);
      } else if step.Take? {
        TakeKeepsHeld(w, step);
      } else if step.GiveBack? {
        GiveBackKeepsHeld(w, step);
      } else {
        ClearKeepsHeld(w);
      }
      HeldFramesStay(Do(w, step), steps[1..]);
    }
  }

  /** The same from a new store, which has no readers. */
  lemma HeldFramesStayInANewStore(limits: Limits, steps: seq<Step>)
    requires Run(Start(limits), steps)
    ensures Held(After(Start(limits), steps))
  {
    var w := Start(limits);
    forall ref ensures Count(w.state, ref) == |Readers(w, ref)| {
      assert Readers(w, ref) == {};
    }
    HeldFramesStay(w, steps);
  }

  /** The exact condition for one return from before a clear: the count stays right if and only if no reader since the
      clear holds the address. */
  lemma StaleReturnCountsIffAlone(w: World, stale: nat)
    requires stale in w.holders && w.holders[stale].era < w.era
    requires var ref := w.holders[stale].ref; Count(w.state, ref) == |Readers(w, ref)|
    ensures var ref, t := w.holders[stale].ref, Do(w, GiveBack(stale));
      Count(t.state, ref) == |Readers(t, ref)| <==> Readers(w, ref) == {}
  {
    var ref, t := w.holders[stale].ref, Do(w, GiveBack(stale));
    assert Readers(t, ref) == Readers(w, ref);
  }

  /** The condition is needed: a reader from before a clear, on its way out, gives back the lease of a reader that came
      after it, and the frame that reader still holds can be evicted. */
  lemma StaleReturnUnprotects(w: World, stale: nat, reader: nat)
    requires stale in w.holders && reader in w.holders && stale != reader
    requires w.holders[stale].ref == w.holders[reader].ref && w.holders[stale].era < w.era == w.holders[reader].era
    requires Count(w.state, w.holders[reader].ref) == 1
    ensures var t := Do(w, GiveBack(stale));
      reader in t.holders && t.holders[reader].era == t.era && !Leased(t.state, t.holders[reader].ref)
  {
  }

  /** Such a pair of readers is reachable: the second publication computed its address before the clear. */
  lemma StaleReturnIsReachable(limits: Limits, content: seq<byte>, ref: Ref)
    requires content != [] && |content| <= limits.frame <= limits.store
    ensures var w1 := Do(Do(World(limits, Empty, 0, map[]), Publish(content, ref)), Take(0, ref));
      var w2 := Do(Do(Do(w1, Clear), Publish(content, ref)), Take(1, ref));
      var w3 := Do(w2, GiveBack(0));
      && Leased(w2.state, ref) && 1 in w3.holders && w3.holders[1] == Holding(ref, w3.era) && !Leased(w3.state, ref)
  {
    var w1 := Do(World(limits, Empty, 0, map[]), Publish(content, ref));
    assert w1.state == State([Blob(ref, content)], map[], Some(ref), |content|);
    var w2 := Do(Do(w1, Take(0, ref)), Clear);
    assert Do(w2, Publish(content, ref)).state == State([Blob(ref, content)], map[], Some(ref), |content|);
    StaleReturnUnprotects(Do(Do(w2, Publish(content, ref)), Take(1, ref)), 0, 1);
  }

  // -- which frames go, and what a publication answers -----------------------------------------

  /** Of some frames, those that may not go. */
  function Guarded(s: State, blobs: seq<Blob>): seq<Blob> {
    if blobs == [] then [] else (if Protected(s, blobs[0]) then [blobs[0]] else []) + Guarded(s, blobs[1..])
  }

  /** The bytes of those that may. */
  function Freeable(s: State, blobs: seq<Blob>): nat {
    if blobs == [] then 0 else (if Protected(s, blobs[0]) then 0 else |blobs[0].content|) + Freeable(s, blobs[1..])
  }

  lemma {:induction false} GuardedConcat(s: State, a: seq<Blob>, b: seq<Blob>)
    ensures Guarded(s, a + b) == Guarded(s, a) + Guarded(s, b) && Freeable(s, a + b) == Freeable(s, a) + Freeable(s, b)
    decreases |a|
  {
    if a == [] {
      assert a + b == b;
    } else {
      assert (a + b)[1..] == a[1..] + b;
      GuardedConcat(s, a[1..], b);
    }
  }

  lemma {:induction false} AllGuarded(s: State, blobs: seq<Blob>)
    requires forall k | 0 <= k < |blobs| :: Protected(s, blobs[k])
    ensures Guarded(s, blobs) == blobs && Freeable(s, blobs) == 0
    decreases |blobs|
  {
    if blobs != [] {
      AllGuarded(s, blobs[1..]);
    }
  }

  lemma GuardedAlike(s: State, t: State, blobs: seq<Blob>)
    requires t.current == s.current && t.leases == s.leases
    ensures Guarded(t, blobs) == Guarded(s, blobs) && Freeable(t, blobs) == Freeable(s, blobs)
  {
    if blobs != [] {
      GuardedAlike(s, t, blobs[1..]);
    }
  }

  /** The first frame that may go, with all that may not in front of it. */
  lemma FirstFreeIsFirst(s: State, i: nat)
    requires i <= |s.blobs|
    ensures match FirstFree(s, i)
      case Some(n) => forall k | i <= k < n :: Protected(s, s.blobs[k])
      case None => true
    decreases |s.blobs| - i
  {
    if i < |s.blobs| && Protected(s, s.blobs[i]) {
      FirstFreeIsFirst(s, i + 1);
    }
  }

  /** Taking out the `i`-th frame and then clearing the first `n` of the rest clears the first `n + 1`. */
  lemma DroppedPrefix(s: State, i: nat, n: nat)
    requires i < |s.blobs| && !Protected(s, s.blobs[i]) && i <= n < |s.blobs|
    ensures var rest := s.blobs[..i] + s.blobs[i + 1..];
      && Guarded(s, rest[..n]) == Guarded(s, s.blobs[..n + 1])
      && Freeable(s, rest[..n]) + |s.blobs[i].content| == Freeable(s, s.blobs[..n + 1])
      && rest[n..] == s.blobs[n + 1..]
  {
    var rest := s.blobs[..i] + s.blobs[i + 1..];
    var front, back, gone := s.blobs[..i], s.blobs[i + 1..n + 1], [s.blobs[i]];
    assert rest[..n] == front + back && s.blobs[..n + 1] == front + (gone + back);
    GuardedConcat(s, front, back);
    GuardedConcat(s, front, gone + back);
    GuardedConcat(s, gone, back);
    OneFree(s, s.blobs[i]);
    assert [] + Guarded(s, back) == Guarded(s, back);
  }

  lemma OneFree(s: State, blob: Blob)
    requires !Protected(s, blob)
    ensures Guarded(s, [blob]) == [] && Freeable(s, [blob]) == |blob.content|
  {
    assert [blob][1..] == [] && [blob][0] == blob;
  }

  /** Eviction takes the oldest frames that may go, up to the `n`-th frame, and not one more than makes room; it fails
      only with nothing left that may go. */
  ghost predicate TakesOldest(s: State, limits: Limits, incoming: nat, n: nat) {
    var (t, room) := Evicted(s, limits, incoming);
    && n <= |s.blobs| && t.blobs == Guarded(s, s.blobs[..n]) + s.blobs[n..]
    && t.bytes == s.bytes - Freeable(s, s.blobs[..n]) && t.leases == s.leases && t.current == s.current
    && (n > 0 ==> !Protected(s, s.blobs[n - 1]) && s.bytes - Freeable(s, s.blobs[..n - 1]) + incoming > limits.store)
    && (room <==> t.bytes + incoming <= limits.store)
    && (!room ==> forall k | 0 <= k < |t.blobs| :: Protected(s, t.blobs[k]))
  }

  lemma {:induction false} EvictionIsOldestFirst(s: State, limits: Limits, incoming: nat) returns (n: nat)
    ensures TakesOldest(s, limits, incoming, n)
    decreases |s.blobs|
  {
    n := 0;
    if s.bytes + incoming > limits.store && FirstFree(s, 0).Some? {
      var i := FirstFree(s, 0).value;
      FirstFreeIsFirst(s, 0);
      var m := EvictionIsOldestFirst(Dropped(s, i), limits, incoming);
      n := EvictedNext(s, limits, incoming, i, m);
    } else {
      assert s.blobs[..0] == [] && s.blobs[0..] == s.blobs;
    }
  }

  lemma EvictedNext(s: State, limits: Limits, incoming: nat, i: nat, m: nat) returns (n: nat)
    requires FirstFree(s, 0) == Some(i) && i < |s.blobs| && s.bytes + incoming > limits.store
    requires forall k | 0 <= k < i :: Protected(s, s.blobs[k])
    requires TakesOldest(Dropped(s, i), limits, incoming, m)
    ensures TakesOldest(s, limits, incoming, n)
  {
    n := EvictedSoFar(s, limits, incoming, i, m);
    SameEviction(s, Dropped(s, i), limits, incoming, n, m);
  }

  lemma SameEviction(s: State, d: State, limits: Limits, incoming: nat, n: nat, m: nat)
    requires d.current == s.current && d.leases == s.leases && Evicted(s, limits, incoming) == Evicted(d, limits, incoming)
    requires TakesOldest(d, limits, incoming, m) && n <= |s.blobs| && n > 0 && !Protected(s, s.blobs[n - 1])
    requires Guarded(s, s.blobs[..n]) + s.blobs[n..] == Guarded(d, d.blobs[..m]) + d.blobs[m..]
    requires s.bytes - Freeable(s, s.blobs[..n]) == d.bytes - Freeable(d, d.blobs[..m])
    requires s.bytes - Freeable(s, s.blobs[..n - 1]) + incoming > limits.store
    ensures TakesOldest(s, limits, incoming, n)
  {
    var t := Evicted(d, limits, incoming).0;
    assert forall k | 0 <= k < |t.blobs| :: Protected(d, t.blobs[k]) == Protected(s, t.blobs[k]);
  }

  lemma NothingFreeInFront(s: State, d: State, i: nat, m: nat)
    requires d.current == s.current && d.leases == s.leases && m <= i <= |s.blobs| && i <= |d.blobs| && d.blobs[..i] == s.blobs[..i]
    requires forall k | 0 <= k < i :: Protected(s, s.blobs[k])
    requires m > 0 ==> !Protected(d, d.blobs[m - 1])
    ensures m == 0
  {
    assert forall k | 0 <= k < i :: d.blobs[k] == d.blobs[..i][k] == s.blobs[k];
  }

  lemma EvictedSoFar(s: State, limits: Limits, incoming: nat, i: nat, m: nat) returns (n: nat)
    requires FirstFree(s, 0) == Some(i) && i < |s.blobs| && m <= |s.blobs| - 1 && s.bytes + incoming > limits.store
    requires forall k | 0 <= k < i :: Protected(s, s.blobs[k])
    requires var d := Dropped(s, i); m > 0 ==> !Protected(d, d.blobs[m - 1]) && d.bytes - Freeable(d, d.blobs[..m - 1]) + incoming > limits.store
    ensures n <= |s.blobs| && n > 0 && !Protected(s, s.blobs[n - 1])
    ensures var d := Dropped(s, i);
      && Guarded(s, s.blobs[..n]) + s.blobs[n..] == Guarded(d, d.blobs[..m]) + d.blobs[m..]
      && s.bytes - Freeable(s, s.blobs[..n]) == d.bytes - Freeable(d, d.blobs[..m])
    ensures s.bytes - Freeable(s, s.blobs[..n - 1]) + incoming > limits.store
  {
    var d := Dropped(s, i);
    AllGuarded(s, s.blobs[..i]);
    GuardedAlike(s, d, d.blobs[..m]);
    if m <= i {
      NothingFreeInFront(s, d, i, m);
      n := i + 1;
      DroppedPrefix(s, i, i);
      assert d.blobs[..0] == [] && d.blobs[..i] == s.blobs[..i];
    } else {
      n := m + 1;
      DroppedPrefix(s, i, m);
      DroppedPrefix(s, i, m - 1);
      GuardedAlike(s, d, d.blobs[..m - 1]);
    }
  }

  /** A publication is refused for another content under its address, or for lack of room; otherwise the frame is stored
      and shown, and the answer says whether it is new. */
  lemma PublishedIff(s: State, limits: Limits, content: seq<byte>, ref: Ref)
    ensures var (t, answer) := Published(s, limits, content, ref);
      var stored := StoredAt(s.blobs, ref);
      && (answer == Err(DigestCollision) <==> stored.Some? && stored.value.content != content)
      && (answer == Ok(false) <==> stored.Some? && stored.value.content == content)
      && (answer == Ok(true) <==> stored.None? && |content| <= limits.store && Evicted(s, limits, |content|).1)
      && (stored.Some? ==> t.blobs == s.blobs && t.bytes == s.bytes)
  {
  }

  lemma PublishedIsShown(s: State, limits: Limits, content: seq<byte>, ref: Ref)
    ensures var (t, answer) := Published(s, limits, content, ref);
      && (answer.Ok? ==> t.current == Some(ref) && Blob(ref, content) in t.blobs)
      && (answer.Err? ==> t.current == s.current)
  {
    if StoredAt(s.blobs, ref).None? && |content| <= limits.store {
      var n := EvictionIsOldestFirst(s, limits, |content|);
      if Evicted(s, limits, |content|).1 {
        NewIsLast(s, limits, content, ref);
      }
    }
  }

  lemma NewIsLast(s: State, limits: Limits, content: seq<byte>, ref: Ref)
    requires StoredAt(s.blobs, ref).None? && |content| <= limits.store && Evicted(s, limits, |content|).1
    ensures Blob(ref, content) in Published(s, limits, content, ref).0.blobs
  {
    var t := Published(s, limits, content, ref).0;
    assert t.blobs[|t.blobs| - 1] == Blob(ref, content);
  }
}

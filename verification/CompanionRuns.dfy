/** What every run of companion operations keeps: one stream per chat, final answers, and a ledger that never asks twice. */
module CompanionRuns {
  import opened Outcomes
  import opened Companion

  /** The operations, each one locked region of the state file. */
  datatype Call =
    | Bind(chat: Chat)
    | SetPolicy(policy: Policy)
    | Propose(id: Id, chat: Chat, outcome: string, nextAction: string, sourceRef: string, now: Stamp)
    | Activate(id: Id, when: Option<Stamp>, now: Stamp)
    | Reschedule(id: Id, when: Option<Stamp>, now: Stamp)
    | Correct(id: Id, outcome: string, nextAction: string, now: Stamp)
    | Delete(id: Id)
    | Deliver(id: Id, messageId: string)
    | Answer(id: Id, verb: Option<Action>, nextAction: string, snoozeMinutes: int, calendar: Calendar, now: Stamp)
    | Claim(id: Id, calendar: Calendar, now: Stamp)

  function Or(s: State, result: Result<State, Refusal>): State {
    match result case Ok(t) => t case Err(_) => s
  }

  function Apply(s: State, call: Call): State {
    match call
    case Bind(chat) => Or(s, Bound(s, chat))
    case SetPolicy(policy) => PolicySet(s, policy)
    case Propose(id, chat, outcome, nextAction, sourceRef, now) => Or(s, Proposed(s, id, chat, outcome, nextAction, sourceRef, now))
    case Activate(id, when, now) => Or(s, Activated(s, id, when, now))
    case Reschedule(id, when, now) => Or(s, Rescheduled(s, id, when, now))
    case Correct(id, outcome, nextAction, now) => Or(s, Corrected(s, id, outcome, nextAction, now))
    case Delete(id) => Deleted(s, id)
    case Deliver(id, messageId) => Delivered(s, id, messageId)
    case Answer(id, verb, nextAction, snooze, calendar, now) =>
      (match Answered(s, id, verb, nextAction, snooze, calendar, now) case Ok(reply) => reply.state case Err(_) => s)
    case Claim(id, calendar, now) => Claimed(s, id, calendar, now).0
  }

  /** The state, the ids ever given out, every claim that won, and where in that history each ledger entry stands. */
  datatype World = World(state: State, issued: set<Id>, wins: seq<Key>, places: seq<nat>)

  function Start(): World {
    World(Blank(), {}, [], [])
  }

  /** Ids are random and never repeat. */
  predicate Possible(w: World, call: Call) {
    call.Propose? ==> call.id !in w.issued
  }

  function Win(s: State, call: Call): Option<Key> {
    if call.Claim? then
      match Claimed(s, call.id, call.calendar, call.now).1 case Ok(key) => Some(key) case Err(_) => None
    else None
  }

  function Do(w: World, call: Call): World {
    var state := Apply(w.state, call);
    World(state,
          if call.Propose? then w.issued + {call.id} else w.issued,
          match Win(w.state, call) case Some(key) => w.wins + [key] case None => w.wins,
          PlacesAfter(w, call))
  }

  /** Bookkeeping that follows the ledger: a win goes to the end, a deletion and a trim take their entries out. */
  function PlacesAfter(w: World, call: Call): seq<nat> {
    match Win(w.state, call)
    case Some(_) => TrimmedPlaces(w.places + [|w.wins|])
    case None =>
      if call.Delete? && call.id in w.state.commitments && |w.places| == |w.state.sends|
      then OtherPlaces(w.state.sends, w.places, call.id)
      else w.places
  }

  function TrimmedPlaces(places: seq<nat>): seq<nat> {
    places[Excess(|places|)..]
  }

  function OtherPlaces(sends: seq<Send>, places: seq<nat>, id: Id): (r: seq<nat>)
    requires |sends| == |places|
    ensures |r| == |OtherSends(sends, id)|
  {
    if sends == [] then []
    else if sends[0].commitment != id then [places[0]] + OtherPlaces(sends[1..], places[1..], id)
    else OtherPlaces(sends[1..], places[1..], id)
  }

  ghost predicate Run(w: World, calls: seq<Call>)
    decreases |calls|
  {
    calls == [] || (Possible(w, calls[0]) && Run(Do(w, calls[0]), calls[1..]))
  }

  function After(w: World, calls: seq<Call>): World
    decreases |calls|
  {
    if calls == [] then w else After(Do(w, calls[0]), calls[1..])
  }

  // -- one stream per chat --------------------------------------------------------------

  ghost predicate Keyed(s: State) {
    forall id <- s.commitments :: s.commitments[id].id == id
  }

  ghost predicate OneStream(s: State) {
    forall a <- s.commitments, b <- s.commitments ::
      s.commitments[a].chat == s.commitments[b].chat && Pending(s.commitments[a].status) && Pending(s.commitments[b].status) ==> a == b
  }

  ghost predicate Orderly(s: State) {
    Keyed(s) && OneStream(s)
  }

  /** Rewriting one record keeps order if it does not newly claim a slot, or the slot is free. */
  lemma WithKeepsOrder(s: State, record: Commitment)
    requires Orderly(s)
    requires Pending(record.status) ==>
      SlotIsFree(s, record)
      || (record.id in s.commitments && Pending(s.commitments[record.id].status) && s.commitments[record.id].chat == record.chat)
    ensures Orderly(With(s, record))
  {
  }

  lemma AnswerKeepsOrder(s: State, call: Call)
    requires call.Answer? && Orderly(s)
    ensures Orderly(Apply(s, call))
  {
    if Answered(s, call.id, call.verb, call.nextAction, call.snoozeMinutes, call.calendar, call.now).Ok? && !IsAnswered(s.commitments[call.id]) {
      WithKeepsOrder(s, AnsweredRecord(s.commitments[call.id], call.verb.value, call.nextAction, call.snoozeMinutes, call.calendar, call.now));
    }
  }

  lemma ClaimKeepsOrder(s: State, call: Call)
    requires call.Claim? && Orderly(s)
    ensures Orderly(Apply(s, call))
  {
    if call.id in s.commitments {
      var record := s.commitments[call.id];
      var silence := WhySilent(s, record, call.calendar, call.now);
      if silence == None {
        var send := Send(CheckinKey(record), call.now, record.chat, record.id);
        WithKeepsOrder(s.(sends := s.sends + [send]), AskedRecord(record, call.now));
      } else if silence == Some(PolicyChanged) {
        WithKeepsOrder(s, record.(policyVersion := Some(s.policy.version), updatedAt := call.now));
      } else if silence == Some(StillOpen) {
        WithKeepsOrder(s, AgedOut(s, record, call.now));
      } else if silence == Some(CheckInExpired) && MarkedMissed(s, record, call.now).Some? {
        WithKeepsOrder(s, MarkedMissed(s, record, call.now).value);
      }
    }
  }

  lemma CallKeepsOrder(s: State, call: Call)
    requires Orderly(s)
    ensures Orderly(Apply(s, call))
  {
    if call.Answer? {
      AnswerKeepsOrder(s, call);
    } else if call.Claim? {
      ClaimKeepsOrder(s, call);
    } else if call.Activate? || call.Reschedule? {
      MoveKeepsOrder(s, call);
    } else if call.Propose? || call.Correct? || call.Deliver? {
      EditKeepsOrder(s, call);
    }
  }

  lemma MoveKeepsOrder(s: State, call: Call)
    requires (call.Activate? || call.Reschedule?) && Orderly(s)
    ensures Orderly(Apply(s, call))
  {
    var t := Apply(s, call);
    if t != s {
      WithKeepsOrder(s, t.commitments[call.id]);
    }
  }

  lemma EditKeepsOrder(s: State, call: Call)
    requires (call.Propose? || call.Correct? || call.Deliver?) && Orderly(s)
    ensures Orderly(Apply(s, call))
  {
    var t := Apply(s, call);
    if call.id in t.commitments {
      WithKeepsOrder(s, t.commitments[call.id]);
    }
  }

  /** One stream per chat, in every run. */
  lemma {:induction false} OneStreamPerChat(w: World, calls: seq<Call>)
    requires Orderly(w.state) && Run(w, calls)
    ensures Orderly(After(w, calls).state)
    decreases |calls|
  {
    if calls != [] {
      CallKeepsOrder(w.state, calls[0]);
      OneStreamPerChat(Do(w, calls[0]), calls[1..]);
    }
  }

  // -- statuses move along the table, and end where it ends ---------------------------------

  /** An operation changes no commitment but the one it names; only a proposal adds one, and only a deletion removes one. */
  lemma OthersUntouched(s: State, call: Call, id: Id)
    requires Keyed(s) && (call.Bind? || call.SetPolicy? || call.id != id)
    ensures id in s.commitments <==> id in Apply(s, call).commitments
    ensures id in s.commitments ==> Apply(s, call).commitments[id] == s.commitments[id]
  {
    if call.Claim? {
      ClaimTouchesOne(s, call, id);
    }
  }

  lemma ClaimTouchesOne(s: State, call: Call, id: Id)
    requires Keyed(s) && call.Claim? && call.id != id
    ensures id in s.commitments <==> id in Apply(s, call).commitments
    ensures id in s.commitments ==> Apply(s, call).commitments[id] == s.commitments[id]
  {
  }

  lemma AnswerFollowsTheTable(s: State, call: Call)
    requires Keyed(s) && call.Answer? && call.id in s.commitments
    ensures call.id in Apply(s, call).commitments
    ensures var (was, now) := (s.commitments[call.id].status, Apply(s, call).commitments[call.id].status);
      now == was || now in Transitions(was)
  {
  }

  lemma ClaimFollowsTheTable(s: State, call: Call)
    requires Keyed(s) && call.Claim? && call.id in s.commitments
    ensures call.id in Apply(s, call).commitments
    ensures var (was, now) := (s.commitments[call.id].status, Apply(s, call).commitments[call.id].status);
      now == was || now in Transitions(was)
  {
  }

  /** Every status change of every operation is an edge of the transition table. */
  lemma StatusesFollowTheTable(s: State, call: Call, id: Id)
    requires Keyed(s) && id in s.commitments && id in Apply(s, call).commitments && !(call.Propose? && call.id == id)
    ensures var (was, now) := (s.commitments[id].status, Apply(s, call).commitments[id].status);
      now == was || now in Transitions(was)
  {
    if call.Bind? || call.SetPolicy? || call.id != id {
      OthersUntouched(s, call, id);
    } else if call.Answer? {
      AnswerFollowsTheTable(s, call);
    } else if call.Claim? {
      ClaimFollowsTheTable(s, call);
    }
  }

  ghost predicate Issued(w: World) {
    Keyed(w.state) && w.state.commitments.Keys <= w.issued
  }

  lemma AnswerKeepsKeys(s: State, call: Call)
    requires Keyed(s) && call.Answer?
    ensures Keyed(Apply(s, call)) && Apply(s, call).commitments.Keys == s.commitments.Keys
  {
  }

  lemma ClaimKeepsKeys(s: State, call: Call)
    requires Keyed(s) && call.Claim?
    ensures Keyed(Apply(s, call)) && Apply(s, call).commitments.Keys == s.commitments.Keys
  {
  }

  lemma StepKeepsIssued(w: World, call: Call)
    requires Issued(w)
    ensures Issued(Do(w, call))
  {
    if call.Answer? {
      AnswerKeepsKeys(w.state, call);
    } else if call.Claim? {
      ClaimKeepsKeys(w.state, call);
    }
  }

  /** A closed commitment stays closed, whatever is done next; the one way out is deletion, and its id never comes back. */
  lemma {:induction false} ClosedIsFinal(w: World, calls: seq<Call>, id: Id)
    requires Issued(w) && Run(w, calls) && id in w.issued
    requires id in w.state.commitments ==> w.state.commitments[id].status in {Done, Stopped}
    ensures var t := After(w, calls).state;
      && (id in t.commitments ==> id in w.state.commitments && t.commitments[id].status == w.state.commitments[id].status)
    decreases |calls|
  {
    if calls != [] {
      StepKeepsIssued(w, calls[0]);
      ClosedStays(w, calls[0], id);
      ClosedIsFinal(Do(w, calls[0]), calls[1..], id);
    }
  }

  lemma UnknownStaysUnknown(s: State, call: Call)
    requires !call.Bind? && !call.SetPolicy? && !call.Propose? && call.id !in s.commitments
    ensures Apply(s, call).commitments == s.commitments
  {
  }

  lemma ClosedStays(w: World, call: Call, id: Id)
    requires Issued(w) && Possible(w, call) && id in w.issued
    requires id in w.state.commitments ==> w.state.commitments[id].status in {Done, Stopped}
    ensures var t := Apply(w.state, call);
      id in t.commitments ==> id in w.state.commitments && t.commitments[id].status == w.state.commitments[id].status
  {
    if call.Bind? || call.SetPolicy? || call.id != id {
      OthersUntouched(w.state, call, id);
    } else if id in w.state.commitments && id in Apply(w.state, call).commitments {
      StatusesFollowTheTable(w.state, call, id);
    } else if id !in w.state.commitments {
      UnknownStaysUnknown(w.state, call);
    }
  }

  // -- a repeated tap -----------------------------------------------------------------------

  ghost predicate AnsweredWith(s: State, id: Id, action: Action) {
    && id in s.commitments && IsAnswered(s.commitments[id]) && s.commitments[id].checkin.value.answer == Some(action)
  }

  /** Operations that open a new check-in for `id`, or close the record. */
  predicate Reopens(call: Call, id: Id) {
    (call.Activate? || call.Reschedule? || call.Claim? || call.Delete? || call.Propose?) && call.id == id
  }

  lemma AnswerSticks(s: State, call: Call, id: Id, action: Action)
    requires Keyed(s) && AnsweredWith(s, id, action) && !Reopens(call, id)
    ensures AnsweredWith(Apply(s, call), id, action)
  {
    if call.Bind? || call.SetPolicy? || call.id != id {
      OthersUntouched(s, call, id);
    }
  }

  /** Once an answer is recorded, and until a new check-in opens, the identical answer changes nothing
      and every other answer is refused, whatever else happens in between. */
  lemma {:induction false} RepeatedAnswerChangesNothing(w: World, calls: seq<Call>, id: Id, action: Action,
                                                        again: Action, next: string, snooze: int, calendar: Calendar, now: Stamp)
    requires Issued(w) && Run(w, calls) && AnsweredWith(w.state, id, action)
    requires forall call <- calls :: !Reopens(call, id)
    ensures var t := After(w, calls).state;
      Answered(t, id, Some(again), next, snooze, calendar, now)
      == if again == action then Ok(Reply(t, true)) else Err(AlreadyAnswered(Some(action)))
    decreases |calls|
  {
    if calls != [] {
      AnswerSticks(w.state, calls[0], id, action);
      StepKeepsIssued(w, calls[0]);
      RepeatedAnswerChangesNothing(Do(w, calls[0]), calls[1..], id, action, again, next, snooze, calendar, now);
    }
  }

  /** An accepted answer is recorded under its action. */
  lemma AcceptedAnswerIsRecorded(s: State, id: Id, verb: Option<Action>, next: string, snooze: int, calendar: Calendar, now: Stamp)
    requires Keyed(s) && Answered(s, id, verb, next, snooze, calendar, now).Ok?
    ensures AnsweredWith(Answered(s, id, verb, next, snooze, calendar, now).value.state, id, verb.value)
  {
  }

  // -- the ledger -----------------------------------------------------------------------------

  ghost predicate Increasing(places: seq<nat>) {
    forall j, k | 0 <= j < k < |places| :: places[j] < places[k]
  }

  ghost predicate KeysDiffer(sends: seq<Send>) {
    forall j, k | 0 <= j < k < |sends| :: sends[j].key != sends[k].key
  }

  /** The ledger's entries are wins, in the order they were won. */
  ghost predicate Lists(sends: seq<Send>, places: seq<nat>, wins: seq<Key>) {
    && |sends| == |places| && Increasing(places) && KeysDiffer(sends)
    && forall k | 0 <= k < |sends| :: places[k] < |wins| && sends[k].key == wins[places[k]] && sends[k].commitment == sends[k].key.id
  }

  /** Each of the last 200 wins is still in the ledger, unless its commitment is gone. */
  ghost predicate Remembers(places: seq<nat>, wins: seq<Key>, open: set<Id>) {
    forall i | 0 <= i < |wins| && |wins| - i <= LEDGER_CAP :: i in places || wins[i].id !in open
  }

  ghost predicate SpacedOut(wins: seq<Key>) {
    forall i, j | 0 <= i < j < |wins| && wins[i] == wins[j] :: j - i > LEDGER_CAP
  }

  ghost predicate LedgerTells(w: World) {
    && Issued(w) && |w.state.sends| <= LEDGER_CAP
    && (forall i | 0 <= i < |w.wins| :: w.wins[i].id in w.issued)
    && Lists(w.state.sends, w.places, w.wins)
    && Remembers(w.places, w.wins, w.state.commitments.Keys)
    && SpacedOut(w.wins)
  }

  lemma {:induction false} IncreasingBelow(places: seq<nat>, end: nat)
    requires Increasing(places) && forall k | 0 <= k < |places| :: places[k] < end
    ensures places != [] ==> places[0] + |places| <= end
    decreases |places|
  {
    if |places| > 1 {
      IncreasingBelow(places[..|places| - 1], places[|places| - 1]);
    }
  }

  lemma {:induction false} PlacesAmong(sends: seq<Send>, places: seq<nat>, id: Id)
    requires |sends| == |places|
    ensures forall p <- OtherPlaces(sends, places, id) :: p in places
    decreases |sends|
  {
    if sends != [] {
      PlacesAmong(sends[1..], places[1..], id);
    }
  }

  lemma {:induction false} OtherWinsStay(sends: seq<Send>, places: seq<nat>, wins: seq<Key>, id: Id)
    requires |sends| == |places|
    requires forall k | 0 <= k < |sends| :: places[k] < |wins| && sends[k].commitment == wins[places[k]].id
    ensures forall p <- places :: p in OtherPlaces(sends, places, id) || wins[p].id == id
    decreases |sends|
  {
    if sends != [] {
      OtherWinsStay(sends[1..], places[1..], wins, id);
      assert places == [places[0]] + places[1..];
    }
  }

  lemma ConsKeepsLists(send: Send, place: nat, sends: seq<Send>, places: seq<nat>, wins: seq<Key>)
    requires Lists(sends, places, wins)
    requires place < |wins| && send.key == wins[place] && send.commitment == send.key.id
    requires forall k | 0 <= k < |sends| :: place < places[k] && send.key != sends[k].key
    ensures Lists([send] + sends, [place] + places, wins)
  {
  }

  lemma HeadComesFirst(sends: seq<Send>, places: seq<nat>, wins: seq<Key>, id: Id, rest: seq<Send>, later: seq<nat>)
    requires Lists(sends, places, wins) && sends != []
    requires rest == OtherSends(sends[1..], id) && later == OtherPlaces(sends[1..], places[1..], id)
    ensures |rest| == |later| && forall k | 0 <= k < |rest| :: places[0] < later[k] && sends[0].key != rest[k].key
  {
    PlacesAmong(sends[1..], places[1..], id);
    forall k | 0 <= k < |rest| ensures places[0] < later[k] && sends[0].key != rest[k].key {
      assert later[k] in places[1..] && rest[k] in sends[1..];
    }
  }

  /** Filtering out one commitment's entries keeps the rest, in order. */
  lemma {:induction false} DeletionKeepsLists(sends: seq<Send>, places: seq<nat>, wins: seq<Key>, id: Id)
    requires Lists(sends, places, wins)
    ensures Lists(OtherSends(sends, id), OtherPlaces(sends, places, id), wins)
    decreases |sends|
  {
    if sends != [] {
      DeletionKeepsLists(sends[1..], places[1..], wins, id);
      if sends[0].commitment != id {
        var rest, later := OtherSends(sends[1..], id), OtherPlaces(sends[1..], places[1..], id);
        HeadComesFirst(sends, places, wins, id, rest, later);
        ConsKeepsLists(sends[0], places[0], rest, later, wins);
      }
    }
  }

  lemma NothingWonYet(w: World, call: Call)
    requires LedgerTells(w) && Possible(w, call) && !call.Delete? && Win(w.state, call).None?
    ensures LedgerTells(Do(w, call))
  {
    var t := Do(w, call);
    StepKeepsIssued(w, call);
    SendsStay(w.state, call);
    assert t.state.commitments.Keys <= w.state.commitments.Keys + if call.Propose? then {call.id} else {};
  }

  lemma SendsStay(s: State, call: Call)
    requires Keyed(s) && |s.sends| <= LEDGER_CAP && !call.Delete? && Win(s, call).None?
    ensures Apply(s, call).sends == s.sends
  {
  }

  lemma DeletionKeepsLedger(w: World, call: Call)
    requires LedgerTells(w) && call.Delete?
    ensures LedgerTells(Do(w, call))
  {
    StepKeepsIssued(w, call);
    if call.id in w.state.commitments {
      DeletionKeepsLists(w.state.sends, w.places, w.wins, call.id);
      OtherWinsStay(w.state.sends, w.places, w.wins, call.id);
      FilterShortens(w.state.sends, call.id);
    }
  }

  lemma {:induction false} FilterShortens(sends: seq<Send>, id: Id)
    ensures |OtherSends(sends, id)| <= |sends|
    decreases |sends|
  {
    if sends != [] {
      FilterShortens(sends[1..], id);
    }
  }

  /** A key that wins has not won among the last 200. */
  lemma WinIsFresh(w: World, call: Call, i: nat)
    requires LedgerTells(w) && Win(w.state, call).Some? && i < |w.wins| && w.wins[i] == Win(w.state, call).value
    ensures |w.wins| - i > LEDGER_CAP
  {
    var s, key := w.state, Win(w.state, call).value;
    assert key.id == call.id && call.id in s.commitments;
    assert !AlreadyAsked(s.sends, key);
    if i in w.places {
      ListedIsAsked(s.sends, w.places, w.wins, i);
    }
  }

  lemma ListedIsAsked(sends: seq<Send>, places: seq<nat>, wins: seq<Key>, i: nat)
    requires Lists(sends, places, wins) && i in places
    ensures i < |wins| && AlreadyAsked(sends, wins[i])
  {
    var k :| 0 <= k < |places| && places[k] == i;
    assert sends[k] in sends;
  }

  lemma WinState(s: State, call: Call)
    requires Keyed(s) && |s.sends| <= LEDGER_CAP && Win(s, call).Some?
    ensures var record := s.commitments[call.id];
      && call.id in s.commitments && Win(s, call) == Some(CheckinKey(record))
      && Apply(s, call).sends == Trimmed(s.sends + [Send(CheckinKey(record), call.now, record.chat, call.id)])
      && Apply(s, call).commitments.Keys == s.commitments.Keys
      && !AlreadyAsked(s.sends, CheckinKey(record))
  {
  }

  lemma TrimKeepsLists(sends: seq<Send>, places: seq<nat>, wins: seq<Key>)
    requires Lists(sends, places, wins)
    ensures Lists(Trimmed(sends), TrimmedPlaces(places), wins)
  {
    SuffixKeepsLists(sends, places, wins, Excess(|sends|));
  }

  lemma SuffixKeepsLists(sends: seq<Send>, places: seq<nat>, wins: seq<Key>, n: nat)
    requires Lists(sends, places, wins) && n <= |sends|
    ensures Lists(sends[n..], places[n..], wins)
  {
    forall k | 0 <= k < |sends| - n ensures sends[n..][k] == sends[n + k] && places[n..][k] == places[n + k] {
    }
  }

  lemma AppendKeepsLists(sends: seq<Send>, places: seq<nat>, wins: seq<Key>, send: Send)
    requires Lists(sends, places, wins) && send.commitment == send.key.id && !AlreadyAsked(sends, send.key)
    ensures Lists(sends + [send], places + [|wins|], wins + [send.key])
  {
    forall k | 0 <= k < |sends| ensures sends[k].key != send.key {
      assert sends[k] in sends;
    }
  }

  lemma WinIsRemembered(places: seq<nat>, wins: seq<Key>, open: set<Id>, key: Key)
    requires |places| <= LEDGER_CAP && Increasing(places) && (forall k | 0 <= k < |places| :: places[k] < |wins|) && Remembers(places, wins, open)
    ensures Remembers(TrimmedPlaces(places + [|wins|]), wins + [key], open)
  {
    IncreasingBelow(places, |wins|);
    var more := places + [|wins|];
    assert more[|places|] == |wins|;
    var kept := TrimmedPlaces(more);
    forall i | 0 <= i < |wins| + 1 && |wins| + 1 - i <= LEDGER_CAP
      ensures i in kept || (wins + [key])[i].id !in open
    {
      if i == |wins| {
        assert kept[|kept| - 1] == i;
      } else if i in places {
        var k :| 0 <= k < |places| && places[k] == i;
        assert kept[k - (|more| - |kept|)] == i;
      }
    }
  }

  lemma WinsStaySpaced(w: World, call: Call)
    requires LedgerTells(w) && Win(w.state, call).Some?
    ensures SpacedOut(w.wins + [Win(w.state, call).value])
  {
    forall i | 0 <= i < |w.wins| && w.wins[i] == Win(w.state, call).value ensures |w.wins| - i > LEDGER_CAP {
      WinIsFresh(w, call, i);
    }
  }

  lemma WinKeepsLedger(w: World, call: Call)
    requires LedgerTells(w) && Win(w.state, call).Some?
    ensures LedgerTells(Do(w, call))
  {
    var s := w.state;
    WinState(s, call);
    var record := s.commitments[call.id];
    var send := Send(CheckinKey(record), call.now, record.chat, call.id);
    StepKeepsIssued(w, call);
    AppendKeepsLists(s.sends, w.places, w.wins, send);
    TrimKeepsLists(s.sends + [send], w.places + [|w.wins|], w.wins + [send.key]);
    WinIsRemembered(w.places, w.wins, s.commitments.Keys, send.key);
    WinsStaySpaced(w, call);
  }

  lemma StepKeepsLedger(w: World, call: Call)
    requires LedgerTells(w) && Possible(w, call)
    ensures LedgerTells(Do(w, call))
  {
    if call.Delete? {
      DeletionKeepsLedger(w, call);
    } else if Win(w.state, call).Some? {
      WinKeepsLedger(w, call);
    } else {
      NothingWonYet(w, call);
    }
  }

  lemma {:induction false} RunKeepsLedger(w: World, calls: seq<Call>)
    requires LedgerTells(w) && Run(w, calls)
    ensures LedgerTells(After(w, calls))
    decreases |calls|
  {
    if calls != [] {
      StepKeepsLedger(w, calls[0]);
      RunKeepsLedger(Do(w, calls[0]), calls[1..]);
    }
  }

  /** Nobody is asked twice about one check-in time while the ledger remembers: in every run, two winning claims of
      one key have at least 200 other wins between them, and the ledger never holds a key twice. */
  lemma AskedAtMostOncePer200(calls: seq<Call>)
    requires Run(Start(), calls)
    ensures var w := After(Start(), calls);
      && SpacedOut(w.wins) && KeysDiffer(w.state.sends) && |w.state.sends| <= LEDGER_CAP
  {
    RunKeepsLedger(Start(), calls);
  }

  /** Every win was taken in a state in which everything held that must: the claim after the first `k` calls won it. */
  lemma {:induction false} WinsWereDue(w: World, calls: seq<Call>, i: nat) returns (k: nat)
    requires Run(w, calls) && |w.wins| <= i < |After(w, calls).wins|
    ensures k < |calls| && calls[k].Claim?
    ensures var v := After(w, calls[..k]);
      && MayAsk(v.state, calls[k].id, calls[k].calendar, calls[k].now) && |v.wins| == i
      && After(w, calls).wins[i] == Key(v.state.commitments[calls[k].id].id, v.state.commitments[calls[k].id].checkInAt)
    decreases |calls|
  {
    var next := Do(w, calls[0]);
    WinsGrow(next, calls[1..]);
    if i < |next.wins| {
      k := 0;
      assert calls[..0] == [];
      ClaimWinsIff(w.state, calls[0].id, calls[0].calendar, calls[0].now);
    } else {
      var j := WinsWereDue(next, calls[1..], i);
      k := j + 1;
      assert calls[..k][1..] == calls[1..][..j];
    }
  }

  lemma {:induction false} WinsGrow(w: World, calls: seq<Call>)
    requires Run(w, calls)
    ensures w.wins <= After(w, calls).wins
    decreases |calls|
  {
    if calls != [] {
      WinsGrow(Do(w, calls[0]), calls[1..]);
    }
  }

  /** Nobody is ever asked who did not turn contact on. */
  lemma {:induction false} ContactIsOptIn(w: World, calls: seq<Call>)
    requires Run(w, calls) && !w.state.policy.enabled && After(w, calls).wins != w.wins
    ensures exists k :: 0 <= k < |calls| && calls[k].SetPolicy? && calls[k].policy.enabled
    decreases |calls|
  {
    var next := Do(w, calls[0]);
    if calls[0].Claim? {
      ClaimWinsIff(w.state, calls[0].id, calls[0].calendar, calls[0].now);
    }
    if !calls[0].SetPolicy? {
      PolicyStays(w.state, calls[0]);
    }
    if !(calls[0].SetPolicy? && calls[0].policy.enabled) {
      ContactIsOptIn(next, calls[1..]);
      var k :| 0 <= k < |calls| - 1 && calls[1..][k].SetPolicy? && calls[1..][k].policy.enabled;
      assert calls[k + 1].SetPolicy?;
    }
  }

  lemma PolicyStays(s: State, call: Call)
    requires !call.SetPolicy?
    ensures Apply(s, call).policy == s.policy
  {
  }
}

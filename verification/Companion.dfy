/** Commitments a user confirmed, the check-ins that ask about them, and the ledger of what was asked. */
module Companion {
  import opened Outcomes

  type Id = string
  type Chat = string

  /** A moment with the offset it is written in: two spellings of one instant are two check-in times. */
  datatype Stamp = Stamp(instant: int, offset: int)

  datatype Status = Candidate | Active | Blocked | Snoozed | Missed | Done | Stopped

  datatype Action = SayDone | SayBlocked | Snooze | Stop | Wrong

  /** One delivery per commitment and check-in time. */
  datatype Key = Key(id: Id, at: Option<Stamp>)

  datatype Checkin = Checkin(key: Key, sentAt: Option<Stamp>, messageId: string, answeredAt: Option<Stamp>, answer: Option<Action>)

  datatype Commitment = Commitment(id: Id, chat: Chat, outcome: string, nextAction: string, status: Status, sourceRef: string,
                                   checkInAt: Option<Stamp>, policyVersion: Option<int>, checkin: Option<Checkin>,
                                   ignoredStreak: nat, revision: int, wrong: bool, updatedAt: Stamp)

  datatype Policy = Policy(enabled: bool, dailyCap: nat, cooldownMinutes: nat, catchUp: bool, expiryMinutes: nat, version: int)

  datatype Context = Context(active: bool, proactive: bool)

  datatype Send = Send(key: Key, at: Stamp, chat: Chat, commitment: Id)

  datatype State = State(contexts: map<Chat, Context>, commitments: map<Id, Commitment>, policy: Policy, sends: seq<Send>)

  /** Time zones: when the quiet window holding a moment ends, and the local day of a moment. */
  datatype Calendar = Calendar(quietEnd: Stamp -> Option<Stamp>, day: Stamp -> int)

  datatype Refusal =
    | UnknownAction | BadTime | NoSuchCommitment | InvalidTransition(current: Status) | NotBound | ContextBusy
    | AlreadyAnswered(answer: Option<Action>) | NoOutcome | NoSource | UnsupportedContext

  /** Why a check-in is not sent. */
  datatype Silence =
    | NoCommitment | ContactIsOff | NotPending | NoReference | ContextInactive | ProactiveOff | NotPrivate | PolicyChanged
    | NoCheckInTime | NotDue | CheckInExpired | StillOpen | WasIgnored | QuietHours | DailyCap | Cooldown | AlreadySent

  const LEDGER_CAP: nat := 200
  const IGNORED_LIMIT: nat := 3

  function Transitions(status: Status): set<Status> {
    match status
    case Candidate => {Active, Stopped}
    case Active => {Done, Blocked, Snoozed, Missed, Stopped}
    case Blocked => {Active, Done, Snoozed, Stopped}
    case Snoozed => {Active, Done, Blocked, Missed, Stopped}
    case Missed => {Active, Done, Blocked, Snoozed, Stopped}
    case Done => {}
    case Stopped => {}
  }

  predicate Reschedulable(status: Status) {
    status in {Active, Blocked, Snoozed, Missed}
  }

  /** Statuses that still owe the user a check-in. */
  predicate Pending(status: Status) {
    status in {Active, Snoozed}
  }

  function ActionStatus(action: Action): Status {
    match action
    case SayDone => Done
    case SayBlocked => Blocked
    case Snooze => Snoozed
    case Stop => Stopped
    case Wrong => Stopped
  }

  predicate IsPrivateChat(chat: Chat) {
    var channel := "telegram:";
    |chat| > |channel| && chat[..|channel|] == channel && chat[|channel|] != '-'
  }

  function Later(moment: Stamp, minutes: int): Stamp {
    moment.(instant := moment.instant + 60 * minutes)
  }

  function CheckinKey(record: Commitment): Key {
    Key(record.id, record.checkInAt)
  }

  // -- the shared pieces ------------------------------------------------------------

  /** How many entries are too many. */
  function Excess(length: nat): (n: nat)
    ensures n <= length && length - n <= LEDGER_CAP && (n > 0 ==> length - n == LEDGER_CAP)
  {
    if length > LEDGER_CAP then length - LEDGER_CAP else 0
  }

  function Trimmed(sends: seq<Send>): seq<Send> {
    sends[Excess(|sends|)..]
  }

  /** Every save keeps only the newest entries of the ledger. */
  function Saved(s: State): State {
    s.(sends := Trimmed(s.sends))
  }

  function With(s: State, record: Commitment): State {
    Saved(s.(commitments := s.commitments[record.id := record]))
  }

  predicate Clashes(other: Commitment, record: Commitment) {
    other.chat == record.chat && other.id != record.id && Pending(other.status)
  }

  predicate SlotIsFree(s: State, record: Commitment) {
    forall id <- s.commitments :: !Clashes(s.commitments[id], record)
  }

  predicate ContextIsActive(s: State, chat: Chat) {
    chat in s.contexts && s.contexts[chat].active
  }

  // -- what each operation does -------------------------------------------------------

  function Bound(s: State, chat: Chat): Result<State, Refusal> {
    if !IsPrivateChat(chat) then Err(UnsupportedContext)
    else Ok(Saved(s.(contexts := s.contexts[chat := Context(true, true)])))
  }

  function PolicySet(s: State, policy: Policy): State {
    Saved(s.(policy := policy.(version := s.policy.version + 1)))
  }

  function Proposed(s: State, id: Id, chat: Chat, outcome: string, nextAction: string, sourceRef: string, now: Stamp): Result<State, Refusal> {
    if outcome == "" then Err(NoOutcome)
    else if sourceRef == "" then Err(NoSource)
    else if !IsPrivateChat(chat) then Err(UnsupportedContext)
    else Ok(With(s, Commitment(id, chat, outcome, nextAction, Candidate, sourceRef, None, None, None, 0, 1, false, now)))
  }

  function Activated(s: State, id: Id, when: Option<Stamp>, now: Stamp): Result<State, Refusal> {
    if when.None? then Err(BadTime)
    else if id !in s.commitments then Err(NoSuchCommitment)
    else
      var record := s.commitments[id];
      if Active !in Transitions(record.status) then Err(InvalidTransition(record.status))
      else if !ContextIsActive(s, record.chat) then Err(NotBound)
      else if !SlotIsFree(s, record) then Err(ContextBusy)
      else Ok(With(s, record.(status := Active, checkInAt := when, policyVersion := Some(s.policy.version),
                              updatedAt := now, checkin := None)))
  }

  function Rescheduled(s: State, id: Id, when: Option<Stamp>, now: Stamp): Result<State, Refusal> {
    if when.None? then Err(BadTime)
    else if id !in s.commitments then Err(NoSuchCommitment)
    else
      var record := s.commitments[id];
      if !Reschedulable(record.status) then Err(InvalidTransition(record.status))
      else if !Pending(record.status) && !SlotIsFree(s, record) then Err(ContextBusy)
      else Ok(With(s, record.(status := Active, checkInAt := when, policyVersion := Some(s.policy.version),
                              checkin := None, updatedAt := now)))
  }

  function Corrected(s: State, id: Id, outcome: string, nextAction: string, now: Stamp): Result<State, Refusal> {
    if id !in s.commitments then Err(NoSuchCommitment)
    else
      var record := s.commitments[id];
      Ok(With(s, record.(outcome := if outcome == "" then record.outcome else outcome,
                         nextAction := if nextAction == "" then record.nextAction else nextAction,
                         revision := record.revision + 1, updatedAt := now)))
  }

  function OtherSends(sends: seq<Send>, id: Id): (r: seq<Send>)
    ensures forall send <- r :: send in sends && send.commitment != id
  {
    if sends == [] then []
    else if sends[0].commitment != id then [sends[0]] + OtherSends(sends[1..], id)
    else OtherSends(sends[1..], id)
  }

  function Deleted(s: State, id: Id): State {
    if id !in s.commitments then s
    else Saved(s.(commitments := s.commitments - {id}, sends := OtherSends(s.sends, id)))
  }

  function Delivered(s: State, id: Id, messageId: string): State {
    if id !in s.commitments || s.commitments[id].checkin.None? then s
    else
      var record := s.commitments[id];
      With(s, record.(checkin := Some(record.checkin.value.(messageId := messageId))))
  }

  predicate IsAnswered(record: Commitment) {
    record.checkin.Some? && record.checkin.value.answeredAt.Some?
  }

  predicate IsOpen(record: Commitment) {
    record.checkin.Some? && record.checkin.value.answeredAt.None?
  }

  datatype Reply = Reply(state: State, repeat: bool)

  /** When a snoozed check-in is asked again: never inside quiet hours. */
  function SnoozedUntil(calendar: Calendar, snoozeMinutes: int, now: Stamp): Stamp {
    var asked := if snoozeMinutes == 0 then 60 else snoozeMinutes;
    var when := Later(now, if asked < 1 then 1 else asked);
    match calendar.quietEnd(when)
    case Some(end) => end
    case None => when
  }

  function AnsweredRecord(record: Commitment, action: Action, nextAction: string, snoozeMinutes: int, calendar: Calendar, now: Stamp): Commitment {
    var marker := match record.checkin
      case Some(open) => open.(answeredAt := Some(now), answer := Some(action))
      case None => Checkin(CheckinKey(record), None, "", Some(now), Some(action));
    record.(status := ActionStatus(action), updatedAt := now, ignoredStreak := 0,
            checkInAt := if action == Snooze then Some(SnoozedUntil(calendar, snoozeMinutes, now)) else record.checkInAt,
            wrong := record.wrong || action == Wrong,
            nextAction := if nextAction == "" then record.nextAction else nextAction,
            checkin := Some(marker))
  }

  function Answered(s: State, id: Id, verb: Option<Action>, nextAction: string, snoozeMinutes: int, calendar: Calendar, now: Stamp)
    : Result<Reply, Refusal>
  {
    if verb.None? then Err(UnknownAction)
    else if id !in s.commitments then Err(NoSuchCommitment)
    else
      var record, action := s.commitments[id], verb.value;
      if IsAnswered(record) then
        if record.checkin.value.answer == verb then Ok(Reply(s, true)) else Err(AlreadyAnswered(record.checkin.value.answer))
      else if ActionStatus(action) !in Transitions(record.status) then Err(InvalidTransition(record.status))
      else if Pending(ActionStatus(action)) && !Pending(record.status) && !SlotIsFree(s, record) then Err(ContextBusy)
      else Ok(Reply(With(s, AnsweredRecord(record, action, nextAction, snoozeMinutes, calendar, now)), false))
  }

  // -- claiming the right to ask --------------------------------------------------------

  function SendsOn(sends: seq<Send>, day: int, calendar: Calendar): nat {
    if sends == [] then 0
    else (if calendar.day(sends[0].at) == day then 1 else 0) + SendsOn(sends[1..], day, calendar)
  }

  function LastSend(sends: seq<Send>): Option<int> {
    if sends == [] then None
    else
      match LastSend(sends[1..])
      case Some(later) => Some(if later > sends[0].at.instant then later else sends[0].at.instant)
      case None => Some(sends[0].at.instant)
  }

  predicate AlreadyAsked(sends: seq<Send>, key: Key) {
    exists send <- sends :: send.key == key
  }

  /** Good silence is the default: the first reason to stay quiet, if there is one. */
  function WhySilent(s: State, record: Commitment, calendar: Calendar, now: Stamp): Option<Silence> {
    var policy, requested := s.policy, record.status == Snoozed;
    if !policy.enabled then Some(ContactIsOff)
    else if !Pending(record.status) then Some(NotPending)
    else if record.sourceRef == "" then Some(NoReference)
    else if !ContextIsActive(s, record.chat) then Some(ContextInactive)
    else if !s.contexts[record.chat].proactive then Some(ProactiveOff)
    else if !IsPrivateChat(record.chat) then Some(NotPrivate)
    else if (match record.policyVersion case Some(v) => v case None => 0) != policy.version then Some(PolicyChanged)
    else if record.checkInAt.None? then Some(NoCheckInTime)
    else if now.instant < record.checkInAt.value.instant then Some(NotDue)
    else if policy.expiryMinutes > 0 && now.instant > Later(record.checkInAt.value, policy.expiryMinutes).instant && !policy.catchUp
      then Some(CheckInExpired)
    else if IsOpen(record) then Some(StillOpen)
    else if record.ignoredStreak >= IGNORED_LIMIT then Some(WasIgnored)
    else if calendar.quietEnd(now).Some? then Some(QuietHours)
    else if policy.dailyCap > 0 && !requested && SendsOn(s.sends, calendar.day(now), calendar) >= policy.dailyCap then Some(DailyCap)
    else if policy.cooldownMinutes > 0 && !requested && LastSend(s.sends).Some?
         && now.instant < LastSend(s.sends).value + 60 * policy.cooldownMinutes then Some(Cooldown)
    else if AlreadyAsked(s.sends, CheckinKey(record)) then Some(AlreadySent)
    else None
  }

  /** An unanswered check-in that has aged out counts against the ignored streak. */
  function AgedOut(s: State, record: Commitment, now: Stamp): Commitment {
    if record.checkin.None? || record.checkin.value.sentAt.None? || s.policy.expiryMinutes == 0
       || now.instant <= Later(record.checkin.value.sentAt.value, s.policy.expiryMinutes).instant
    then record
    else record.(checkin := None, ignoredStreak := record.ignoredStreak + 1, updatedAt := now)
  }

  /** An expired check-in frees the chat's slot, unless one that was sent can still be answered. */
  function MarkedMissed(s: State, record: Commitment, now: Stamp): Option<Commitment> {
    var aged := if IsOpen(record) then AgedOut(s, record, now) else record;
    if IsOpen(record) && aged.checkin.Some? then None
    else Some(aged.(status := Missed, checkin := None, updatedAt := now))
  }

  function AskedRecord(record: Commitment, now: Stamp): Commitment {
    record.(status := if record.status == Snoozed then Active else record.status,
            checkin := Some(Checkin(CheckinKey(record), Some(now), "", None, None)), updatedAt := now)
  }

  /** The state after a claim, and the key if this caller won. */
  function Claimed(s: State, id: Id, calendar: Calendar, now: Stamp): (State, Result<Key, Silence>) {
    if id !in s.commitments then (s, Err(NoCommitment))
    else
      var record := s.commitments[id];
      match WhySilent(s, record, calendar, now)
      case None =>
        var send := Send(CheckinKey(record), now, record.chat, record.id);
        (With(s.(sends := s.sends + [send]), AskedRecord(record, now)), Ok(CheckinKey(record)))
      case Some(reason) =>
        if reason == PolicyChanged then
          (With(s, record.(policyVersion := Some(s.policy.version), updatedAt := now)), Err(reason))
        else if reason == StillOpen then (With(s, AgedOut(s, record, now)), Err(reason))
        else if reason == CheckInExpired && MarkedMissed(s, record, now).Some? then
          (With(s, MarkedMissed(s, record, now).value), Err(reason))
        else (s, Err(reason))
  }

  // -- when a claim wins, said without the order in which the reasons are looked at ---------

  /** A chat with one user: a group's number is negative. */
  ghost predicate OneUser(chat: Chat) {
    exists user :: chat == "telegram:" + user && user != "" && user[0] != '-'
  }

  /** What must hold of a commitment whatever the time: contact is on, it waits for a check-in, it has a source, and its chat
      is bound to one user who lets Birkin speak first. */
  ghost predicate MayBeAsked(s: State, record: Commitment) {
    && s.policy.enabled
    && record.status in {Active, Snoozed}
    && record.sourceRef != ""
    && record.chat in s.contexts && s.contexts[record.chat] == Context(true, true)
    && OneUser(record.chat)
  }

  /** It was scheduled under the policy that is in force; a record from before versions counts as version 0. */
  predicate UnderPolicy(s: State, record: Commitment) {
    record.policyVersion == Some(s.policy.version) || (record.policyVersion == None && s.policy.version == 0)
  }

  predicate IsDue(record: Commitment, now: Stamp) {
    record.checkInAt.Some? && record.checkInAt.value.instant <= now.instant
  }

  /** The check-in time is too long ago, and catching up is not wanted. */
  predicate TooLate(s: State, record: Commitment, now: Stamp)
    requires record.checkInAt.Some?
  {
    0 < 60 * s.policy.expiryMinutes < now.instant - record.checkInAt.value.instant && !s.policy.catchUp
  }

  /** The ledger's entries of the local day of `now`. */
  function Today(sends: seq<Send>, calendar: Calendar, now: Stamp): set<nat> {
    set k: nat | k < |sends| && calendar.day(sends[k].at) == calendar.day(now)
  }

  /** The limits on contact nobody asked for: so many a day, and so long since the last. */
  ghost predicate WithinLimits(s: State, calendar: Calendar, now: Stamp) {
    && (s.policy.dailyCap == 0 || |Today(s.sends, calendar, now)| < s.policy.dailyCap)
    && (s.policy.cooldownMinutes == 0 ||
        forall k | 0 <= k < |s.sends| :: s.sends[k].at.instant + 60 * s.policy.cooldownMinutes <= now.instant)
  }

  /** Everything that must hold for a check-in to be sent. Only the limits are waived for a check-in the user put off. */
  ghost predicate MayAsk(s: State, id: Id, calendar: Calendar, now: Stamp) {
    id in s.commitments &&
    var record := s.commitments[id];
    && MayBeAsked(s, record) && UnderPolicy(s, record)
    && IsDue(record, now) && !TooLate(s, record, now)
    && (record.checkin.None? || record.checkin.value.answeredAt.Some?)
    && record.ignoredStreak < 3
    && calendar.quietEnd(now).None?
    && (record.status == Snoozed || WithinLimits(s, calendar, now))
    && (forall k | 0 <= k < |s.sends| :: s.sends[k].key != Key(record.id, record.checkInAt))
  }

  lemma PrivateIsOneUser(chat: Chat)
    ensures IsPrivateChat(chat) <==> OneUser(chat)
  {
    var channel := "telegram:";
    if IsPrivateChat(chat) {
      var user := chat[|channel|..];
      assert chat == channel + user;
    }
    if OneUser(chat) {
      var user :| chat == channel + user && user != "" && user[0] != '-';
      assert chat[|channel|] == user[0] && chat[..|channel|] == channel;
    }
  }

  /** The count of the daily cap is the number of entries of the day. */
  lemma {:induction false} SendsOnCounts(sends: seq<Send>, calendar: Calendar, now: Stamp)
    ensures SendsOn(sends, calendar.day(now), calendar) == |Today(sends, calendar, now)|
  {
    if sends != [] {
      var rest := Today(sends[1..], calendar, now);
      SendsOnCounts(sends[1..], calendar, now);
      var moved := set k | k in rest :: k + 1;
      ShiftKeepsSize(rest, moved);
      var head: set<nat> := if calendar.day(sends[0].at) == calendar.day(now) then {0} else {};
      assert Today(sends, calendar, now) == head + moved by {
        forall k: nat | k < |sends| && k > 0 ensures sends[1..][k - 1] == sends[k] {
        }
        forall k: nat | k in Today(sends, calendar, now) && k > 0 ensures k in moved {
          assert k - 1 in rest;
        }
      }
    }
  }

  lemma {:induction false} ShiftKeepsSize(a: set<nat>, b: set<nat>)
    requires forall k: nat :: k in b <==> k > 0 && k - 1 in a
    ensures |b| == |a|
    decreases |a|
  {
    if a == {} {
      assert b == {};
    } else {
      var k :| k in a;
      assert k + 1 in b;
      ShiftKeepsSize(a - {k}, b - {k + 1});
    }
  }

  /** The last send is the latest: a cooldown is over for it exactly when it is over for all. */
  lemma {:induction false} LastSendIsLatest(sends: seq<Send>, bound: int)
    ensures LastSend(sends).None? <==> sends == []
    ensures LastSend(sends).Some? ==> (LastSend(sends).value <= bound <==> forall k | 0 <= k < |sends| :: sends[k].at.instant <= bound)
  {
    if sends != [] {
      LastSendIsLatest(sends[1..], bound);
      assert forall k | 0 < k < |sends| :: sends[k] == sends[1..][k - 1];
      assert forall k | 0 <= k < |sends| - 1 :: sends[1..][k] == sends[k + 1];
    }
  }

  lemma LimitsAreKept(s: State, calendar: Calendar, now: Stamp)
    ensures WithinLimits(s, calendar, now) <==>
      && !(s.policy.dailyCap > 0 && SendsOn(s.sends, calendar.day(now), calendar) >= s.policy.dailyCap)
      && !(s.policy.cooldownMinutes > 0 && LastSend(s.sends).Some?
           && now.instant < LastSend(s.sends).value + 60 * s.policy.cooldownMinutes)
  {
    SendsOnCounts(s.sends, calendar, now);
    LastSendIsLatest(s.sends, now.instant - 60 * s.policy.cooldownMinutes);
  }

  /** A claim wins exactly if everything holds that must, and it wins the key of its commitment and check-in time. */
  lemma ClaimWinsIff(s: State, id: Id, calendar: Calendar, now: Stamp)
    ensures Claimed(s, id, calendar, now).1.Ok? <==> MayAsk(s, id, calendar, now)
    ensures MayAsk(s, id, calendar, now) ==>
      Claimed(s, id, calendar, now).1 == Ok(Key(s.commitments[id].id, s.commitments[id].checkInAt))
  {
    if id in s.commitments {
      var record := s.commitments[id];
      PrivateIsOneUser(record.chat);
      LimitsAreKept(s, calendar, now);
      assert AlreadyAsked(s.sends, CheckinKey(record))
        <==> exists k | 0 <= k < |s.sends| :: s.sends[k].key == Key(record.id, record.checkInAt);
    }
  }

  /** A win enters the key in the ledger and opens the check-in; a commitment put off is active again. */
  lemma WinOpensCheckin(s: State, id: Id, calendar: Calendar, now: Stamp)
    requires id in s.commitments && s.commitments[id].id == id && |s.sends| <= LEDGER_CAP && MayAsk(s, id, calendar, now)
    ensures var (t, record) := (Claimed(s, id, calendar, now).0, s.commitments[id]);
      var key := Key(id, record.checkInAt);
      && t.commitments == s.commitments[id := record.(status := Active, updatedAt := now,
                                                      checkin := Some(Checkin(key, Some(now), "", None, None)))]
      && t.sends == s.sends[if |s.sends| == 200 then 1 else 0..] + [Send(key, now, record.chat, id)]
      && t.contexts == s.contexts && t.policy == s.policy
  {
    ClaimWinsIff(s, id, calendar, now);
    WonClaim(s, id, calendar, now);
    OpensCheckin(s, s.commitments[id], now);
  }

  lemma WonClaim(s: State, id: Id, calendar: Calendar, now: Stamp)
    requires Claimed(s, id, calendar, now).1.Ok?
    ensures id in s.commitments
    ensures var record := s.commitments[id];
      Claimed(s, id, calendar, now).0
      == With(s.(sends := s.sends + [Send(CheckinKey(record), now, record.chat, record.id)]), AskedRecord(record, now))
  {
  }

  lemma OpensCheckin(s: State, record: Commitment, now: Stamp)
    requires |s.sends| <= LEDGER_CAP && record.status in {Active, Snoozed}
    ensures var send := Send(CheckinKey(record), now, record.chat, record.id);
      && Trimmed(s.sends + [send]) == s.sends[if |s.sends| == 200 then 1 else 0..] + [send]
      && AskedRecord(record, now)
         == record.(status := Active, updatedAt := now, checkin := Some(Checkin(CheckinKey(record), Some(now), "", None, None)))
  {
  }

  /** What a lost claim leaves of the record it was for. */
  ghost predicate LeftAs(s: State, id: Id, calendar: Calendar, now: Stamp, record: Commitment) {
    var (t, answer) := Claimed(s, id, calendar, now);
    && answer.Err? && id in t.commitments && t.commitments == s.commitments[id := record]
    && t.contexts == s.contexts && t.policy == s.policy && t.sends == s.sends
  }

  /** A commitment scheduled under an older policy is taken over by the one in force, and is not asked yet. */
  lemma StaleClaimIsRestamped(s: State, id: Id, calendar: Calendar, now: Stamp)
    requires id in s.commitments && s.commitments[id].id == id && |s.sends| <= LEDGER_CAP
    requires MayBeAsked(s, s.commitments[id]) && !UnderPolicy(s, s.commitments[id])
    ensures LeftAs(s, id, calendar, now, s.commitments[id].(policyVersion := Some(s.policy.version), updatedAt := now))
  {
    PrivateIsOneUser(s.commitments[id].chat);
  }

  /** A check-in that was sent has aged out: nobody answered it in time. */
  predicate Unanswered(s: State, record: Commitment, now: Stamp) {
    && record.checkin.Some? && record.checkin.value.answeredAt.None? && record.checkin.value.sentAt.Some?
    && 0 < 60 * s.policy.expiryMinutes < now.instant - record.checkin.value.sentAt.value.instant
  }

  /** A check-in whose time has passed is missed and frees the chat, unless one that was sent can still be answered. */
  lemma LateClaimIsMissed(s: State, id: Id, calendar: Calendar, now: Stamp)
    requires id in s.commitments && s.commitments[id].id == id && |s.sends| <= LEDGER_CAP
    requires MayBeAsked(s, s.commitments[id]) && UnderPolicy(s, s.commitments[id])
    requires IsDue(s.commitments[id], now) && TooLate(s, s.commitments[id], now)
    ensures var record := s.commitments[id];
      LeftAs(s, id, calendar, now,
             if Unanswered(s, record, now)
             then record.(status := Missed, checkin := None, ignoredStreak := record.ignoredStreak + 1, updatedAt := now)
             else if record.checkin.Some? && record.checkin.value.answeredAt.None? then record
             else record.(status := Missed, checkin := None, updatedAt := now))
  {
    var record := s.commitments[id];
    LateReason(s, record, calendar, now);
    MissedRecord(s, record, now);
    assert s.commitments[id := record] == s.commitments;
  }

  lemma LateReason(s: State, record: Commitment, calendar: Calendar, now: Stamp)
    requires MayBeAsked(s, record) && UnderPolicy(s, record) && IsDue(record, now) && TooLate(s, record, now)
    ensures WhySilent(s, record, calendar, now) == Some(CheckInExpired)
  {
    PrivateIsOneUser(record.chat);
  }

  lemma MissedRecord(s: State, record: Commitment, now: Stamp)
    ensures MarkedMissed(s, record, now) ==
      if Unanswered(s, record, now)
      then Some(record.(status := Missed, checkin := None, ignoredStreak := record.ignoredStreak + 1, updatedAt := now))
      else if record.checkin.Some? && record.checkin.value.answeredAt.None? then None
      else Some(record.(status := Missed, checkin := None, updatedAt := now))
  {
  }

  /** A check-in still open is closed, and counted as ignored, once it has aged out. */
  lemma OpenClaimAges(s: State, id: Id, calendar: Calendar, now: Stamp)
    requires id in s.commitments && s.commitments[id].id == id && |s.sends| <= LEDGER_CAP
    requires MayBeAsked(s, s.commitments[id]) && UnderPolicy(s, s.commitments[id])
    requires IsDue(s.commitments[id], now) && !TooLate(s, s.commitments[id], now)
    requires s.commitments[id].checkin.Some? && s.commitments[id].checkin.value.answeredAt.None?
    ensures var record := s.commitments[id];
      LeftAs(s, id, calendar, now,
             if Unanswered(s, record, now)
             then record.(checkin := None, ignoredStreak := record.ignoredStreak + 1, updatedAt := now)
             else record)
  {
    PrivateIsOneUser(s.commitments[id].chat);
  }

  /** For every other reason a claim changes nothing at all. */
  lemma OtherwiseSilent(s: State, id: Id, calendar: Calendar, now: Stamp)
    requires !MayAsk(s, id, calendar, now)
    requires id in s.commitments && MayBeAsked(s, s.commitments[id]) ==>
      && UnderPolicy(s, s.commitments[id])
      && (IsDue(s.commitments[id], now) ==>
            !TooLate(s, s.commitments[id], now)
            && (s.commitments[id].checkin.None? || s.commitments[id].checkin.value.answeredAt.Some?))
    ensures Claimed(s, id, calendar, now).0 == s && Claimed(s, id, calendar, now).1.Err?
  {
    ClaimWinsIff(s, id, calendar, now);
    if id in s.commitments {
      PrivateIsOneUser(s.commitments[id].chat);
    }
  }

  // -- what a schedule leads to ---------------------------------------------------------------

  /** What of `MayAsk` does not depend on the commitment being scheduled. */
  ghost predicate TimeIsRight(s: State, record: Commitment, when: Stamp, calendar: Calendar, now: Stamp) {
    && s.policy.enabled && record.sourceRef != ""
    && record.chat in s.contexts && s.contexts[record.chat] == Context(true, true) && OneUser(record.chat)
    && when.instant <= now.instant
    && (0 < 60 * s.policy.expiryMinutes < now.instant - when.instant ==> s.policy.catchUp)
    && calendar.quietEnd(now).None?
    && (forall k | 0 <= k < |s.sends| :: s.sends[k].key != Key(record.id, Some(when)))
  }

  /** A commitment that was activated is asked at its time, if the limits allow it. */
  lemma ActivatedIsAsked(s: State, id: Id, when: Option<Stamp>, at: Stamp, calendar: Calendar, now: Stamp)
    requires Activated(s, id, when, at).Ok? && s.commitments[id].id == id
    ensures var t := Activated(s, id, when, at).value;
      MayAsk(t, id, calendar, now) <==>
        && TimeIsRight(t, s.commitments[id], when.value, calendar, now) && WithinLimits(t, calendar, now)
        && s.commitments[id].ignoredStreak < 3
  {
    var t := Activated(s, id, when, at).value;
    assert t.commitments[id].checkInAt == when && t.commitments[id].chat == s.commitments[id].chat;
  }

  /** So is one that was rescheduled. */
  lemma RescheduledIsAsked(s: State, id: Id, when: Option<Stamp>, at: Stamp, calendar: Calendar, now: Stamp)
    requires Rescheduled(s, id, when, at).Ok? && s.commitments[id].id == id
    ensures var t := Rescheduled(s, id, when, at).value;
      MayAsk(t, id, calendar, now) <==>
        && TimeIsRight(t, s.commitments[id], when.value, calendar, now) && WithinLimits(t, calendar, now)
        && s.commitments[id].ignoredStreak < 3
  {
    var t := Rescheduled(s, id, when, at).value;
    assert t.commitments[id].checkInAt == when && t.commitments[id].chat == s.commitments[id].chat;
  }

  /** A check-in the user put off is asked again when it was put off to, limits or not, and earlier silence is forgiven. */
  lemma SnoozedIsAsked(s: State, id: Id, nextAction: string, minutes: int, zone: Calendar, at: Stamp, calendar: Calendar, now: Stamp)
    requires Answered(s, id, Some(Snooze), nextAction, minutes, zone, at).Ok? && s.commitments[id].id == id
    requires !IsAnswered(s.commitments[id])
    ensures var t := Answered(s, id, Some(Snooze), nextAction, minutes, zone, at).value.state;
      && t.commitments[id].status == Snoozed
      && (MayAsk(t, id, calendar, now) <==>
            TimeIsRight(t, s.commitments[id], SnoozedUntil(zone, minutes, at), calendar, now) && UnderPolicy(s, s.commitments[id]))
  {
    var t := Answered(s, id, Some(Snooze), nextAction, minutes, zone, at).value.state;
    assert t.commitments[id] == AnsweredRecord(s.commitments[id], Snooze, nextAction, minutes, zone, at);
    assert IsAnswered(t.commitments[id]);
  }

  /** Putting off takes the minutes asked for, an hour if none were, at least one; and ends behind a quiet window. */
  lemma SnoozeLasts(zone: Calendar, minutes: int, now: Stamp)
    ensures var until := SnoozedUntil(zone, minutes, now);
      var asked := now.(instant := now.instant + 60 * if minutes == 0 then 60 else if minutes < 0 then 1 else minutes);
      && now.instant + 60 <= asked.instant
      && (zone.quietEnd(asked) == None ==> until == asked)
      && (zone.quietEnd(asked).Some? ==> until == zone.quietEnd(asked).value)
  {
  }

  // -- when the other operations go through ------------------------------------------------------

  /** No other commitment of the chat waits for a check-in. */
  predicate ChatIsFree(s: State, record: Commitment) {
    forall id <- s.commitments :: s.commitments[id].id != record.id && s.commitments[id].status in {Active, Snoozed} ==>
      s.commitments[id].chat != record.chat
  }

  /** A candidate needs an outcome, a source and a chat with one user; it starts without a check-in time. */
  lemma ProposedIff(s: State, id: Id, chat: Chat, outcome: string, nextAction: string, sourceRef: string, now: Stamp)
    ensures var r := Proposed(s, id, chat, outcome, nextAction, sourceRef, now);
      && (r.Ok? <==> outcome != "" && sourceRef != "" && OneUser(chat))
      && (r.Ok? ==>
            && id in r.value.commitments
            && var record := r.value.commitments[id];
            && record.status == Candidate && record.checkInAt == None && record.checkin == None && record.policyVersion == None
            && (record.chat, record.outcome, record.nextAction, record.sourceRef) == (chat, outcome, nextAction, sourceRef))
  {
    PrivateIsOneUser(chat);
  }

  /** A commitment is activated at a readable time, from a status that allows it, in a bound chat that is free. */
  lemma ActivatedIff(s: State, id: Id, when: Option<Stamp>, now: Stamp)
    ensures Activated(s, id, when, now).Ok? <==>
      && when.Some? && id in s.commitments
      && s.commitments[id].status in {Candidate, Blocked, Snoozed, Missed}
      && s.commitments[id].chat in s.contexts && s.contexts[s.commitments[id].chat].active
      && ChatIsFree(s, s.commitments[id])
  {
    if id in s.commitments {
      assert SlotIsFree(s, s.commitments[id]) == ChatIsFree(s, s.commitments[id]);
    }
  }

  /** A commitment that is neither a candidate nor over is rescheduled, unless that would put two into one chat. */
  lemma RescheduledIff(s: State, id: Id, when: Option<Stamp>, now: Stamp)
    ensures Rescheduled(s, id, when, now).Ok? <==>
      && when.Some? && id in s.commitments
      && s.commitments[id].status in {Active, Blocked, Snoozed, Missed}
      && (s.commitments[id].status in {Blocked, Missed} ==> ChatIsFree(s, s.commitments[id]))
  {
    if id in s.commitments {
      assert SlotIsFree(s, s.commitments[id]) == ChatIsFree(s, s.commitments[id]);
    }
  }

  /** A check-in not answered yet takes any answer that its status allows: stopping always, the rest once it was activated. */
  lemma AnsweredIff(s: State, id: Id, verb: Option<Action>, nextAction: string, minutes: int, calendar: Calendar, now: Stamp)
    requires id in s.commitments ==> !IsAnswered(s.commitments[id])
    ensures Answered(s, id, verb, nextAction, minutes, calendar, now).Ok? <==>
      && verb.Some? && id in s.commitments
      && (match verb.value
          case Stop => s.commitments[id].status !in {Done, Stopped}
          case Wrong => s.commitments[id].status !in {Done, Stopped}
          case SayDone => s.commitments[id].status !in {Candidate, Done, Stopped}
          case SayBlocked => s.commitments[id].status in {Active, Snoozed, Missed}
          case Snooze => s.commitments[id].status in {Active, Blocked, Missed}
                         && (s.commitments[id].status == Active || ChatIsFree(s, s.commitments[id])))
  {
    if id in s.commitments {
      assert SlotIsFree(s, s.commitments[id]) == ChatIsFree(s, s.commitments[id]);
    }
  }

  /** What an accepted answer makes of the record: its new status, no streak, and the answer under the key that was asked. */
  lemma AnswerIsStored(s: State, id: Id, verb: Option<Action>, nextAction: string, minutes: int, calendar: Calendar, now: Stamp)
    requires id in s.commitments && s.commitments[id].id == id && !IsAnswered(s.commitments[id])
    requires Answered(s, id, verb, nextAction, minutes, calendar, now).Ok?
    ensures var (was, t) := (s.commitments[id], Answered(s, id, verb, nextAction, minutes, calendar, now).value.state);
      && id in t.commitments && t.commitments[id].checkin.Some?
      && var done := t.commitments[id];
      && done.ignoredStreak == 0
      && done.status == (match verb.value case SayDone => Done case SayBlocked => Blocked case Snooze => Snoozed case _ => Stopped)
      && (done.wrong <==> was.wrong || verb == Some(Wrong))
      && done.checkin.value.answer == verb && done.checkin.value.answeredAt == Some(now)
      && done.checkin.value.key == (if was.checkin.Some? then was.checkin.value.key else Key(id, was.checkInAt))
      && (verb != Some(Snooze) ==> done.checkInAt == was.checkInAt)
      && done.nextAction == (if nextAction == "" then was.nextAction else nextAction)
  {
    var t := Answered(s, id, verb, nextAction, minutes, calendar, now).value.state;
    assert t.commitments[id] == AnsweredRecord(s.commitments[id], verb.value, nextAction, minutes, calendar, now);
  }

  // -- the store ----------------------------------------------------------------------------

  /** The state file, as the locked operations rewrite it. */
  class Store {
    var contexts: map<Chat, Context>
    var commitments: map<Id, Commitment>
    var policy: Policy
    var sends: seq<Send>

    function View(): State
      reads this
    {
      State(contexts, commitments, policy, sends)
    }

    constructor ()
      ensures View() == Blank()
    {
      contexts, commitments, policy, sends := map[], map[], Policy(false, 1, 720, false, 360, 1), [];
    }

    method Save()
      modifies this`sends
      ensures View() == Saved(old(View()))
    {
      if |sends| > LEDGER_CAP {
        sends := sends[|sends| - LEDGER_CAP..];
      }
    }

    method RequireFreeSlot(record: Commitment) returns (free: bool)
      ensures free == SlotIsFree(View(), record)
    {
      var ids := commitments.Keys;
      while ids != {}
        invariant ids <= commitments.Keys
        invariant forall id | id in commitments && id !in ids :: !Clashes(commitments[id], record)
        decreases |ids|
      {
        var id :| id in ids;
        if Clashes(commitments[id], record) {
          return false;
        }
        ids := ids - {id};
      }
      free := true;
    }

    method Activate(id: Id, when: Option<Stamp>, now: Stamp) returns (refusal: Option<Refusal>)
      modifies this
      ensures match Activated(old(View()), id, when, now)
        case Ok(s) => refusal == None && View() == s
        case Err(e) => refusal == Some(e) && View() == old(View())
    {
      if when.None? { return Some(BadTime); }
      if id !in commitments { return Some(NoSuchCommitment); }
      var record := commitments[id];
      if Active !in Transitions(record.status) { return Some(InvalidTransition(record.status)); }
      if record.chat !in contexts || !contexts[record.chat].active { return Some(NotBound); }
      var free := RequireFreeSlot(record);
      if !free { return Some(ContextBusy); }
      record := record.(status := Active, checkInAt := when, policyVersion := Some(policy.version), updatedAt := now, checkin := None);
      commitments := commitments[record.id := record];
      Save();
      refusal := None;
    }

    method Reschedule(id: Id, when: Option<Stamp>, now: Stamp) returns (refusal: Option<Refusal>)
      modifies this
      ensures match Rescheduled(old(View()), id, when, now)
        case Ok(s) => refusal == None && View() == s
        case Err(e) => refusal == Some(e) && View() == old(View())
    {
      if when.None? { return Some(BadTime); }
      if id !in commitments { return Some(NoSuchCommitment); }
      var record := commitments[id];
      if !Reschedulable(record.status) { return Some(InvalidTransition(record.status)); }
      if !Pending(record.status) {
        var free := RequireFreeSlot(record);
        if !free { return Some(ContextBusy); }
      }
      record := record.(status := Active, checkInAt := when, policyVersion := Some(policy.version), checkin := None, updatedAt := now);
      commitments := commitments[record.id := record];
      Save();
      refusal := None;
    }

    method Answer(id: Id, verb: Option<Action>, nextAction: string, snoozeMinutes: int, calendar: Calendar, now: Stamp)
      returns (result: Result<bool, Refusal>)
      modifies this
      ensures match Answered(old(View()), id, verb, nextAction, snoozeMinutes, calendar, now)
        case Ok(reply) => result == Ok(reply.repeat) && View() == reply.state
        case Err(e) => result == Err(e) && View() == old(View())
    {
      if verb.None? { return Err(UnknownAction); }
      if id !in commitments { return Err(NoSuchCommitment); }
      var record, action := commitments[id], verb.value;
      if record.checkin.Some? && record.checkin.value.answeredAt.Some? {
        if record.checkin.value.answer == verb { return Ok(true); }
        return Err(AlreadyAnswered(record.checkin.value.answer));
      }
      var target := ActionStatus(action);
      if target !in Transitions(record.status) { return Err(InvalidTransition(record.status)); }
      if Pending(target) && !Pending(record.status) {
        var free := RequireFreeSlot(record);
        if !free { return Err(ContextBusy); }
      }
      // Keyed before the changes below: a snooze moves the check-in time.
      var marker := match record.checkin case Some(open) => open case None => Checkin(CheckinKey(record), None, "", None, None);
      record := record.(status := target, updatedAt := now, ignoredStreak := 0);
      if action == Snooze {
        record := record.(checkInAt := Some(SnoozedUntil(calendar, snoozeMinutes, now)));
      }
      if action == Wrong {
        record := record.(wrong := true);
      }
      if nextAction != "" {
        record := record.(nextAction := nextAction);
      }
      record := record.(checkin := Some(marker.(answeredAt := Some(now), answer := Some(action))));
      commitments := commitments[record.id := record];
      Save();
      result := Ok(false);
    }

    method BindContext(chat: Chat) returns (refusal: Option<Refusal>)
      modifies this
      ensures match Bound(old(View()), chat)
        case Ok(s) => refusal == None && View() == s
        case Err(e) => refusal == Some(e) && View() == old(View())
    {
      if !IsPrivateChat(chat) { return Some(UnsupportedContext); }
      contexts := contexts[chat := Context(true, true)];
      Save();
      refusal := None;
    }

    method SetPolicy(changed: Policy)
      modifies this
      ensures View() == PolicySet(old(View()), changed)
    {
      policy := changed.(version := policy.version + 1);
      Save();
    }

    method AddCandidate(id: Id, chat: Chat, outcome: string, nextAction: string, sourceRef: string, now: Stamp)
      returns (refusal: Option<Refusal>)
      modifies this
      ensures match Proposed(old(View()), id, chat, outcome, nextAction, sourceRef, now)
        case Ok(s) => refusal == None && View() == s
        case Err(e) => refusal == Some(e) && View() == old(View())
    {
      if outcome == "" { return Some(NoOutcome); }
      if sourceRef == "" { return Some(NoSource); }
      if !IsPrivateChat(chat) { return Some(UnsupportedContext); }
      commitments := commitments[id := Commitment(id, chat, outcome, nextAction, Candidate, sourceRef, None, None, None, 0, 1, false, now)];
      Save();
      refusal := None;
    }

    method Correct(id: Id, outcome: string, nextAction: string, now: Stamp) returns (refusal: Option<Refusal>)
      modifies this
      ensures match Corrected(old(View()), id, outcome, nextAction, now)
        case Ok(s) => refusal == None && View() == s
        case Err(e) => refusal == Some(e) && View() == old(View())
    {
      if id !in commitments { return Some(NoSuchCommitment); }
      var record := commitments[id];
      if outcome != "" { record := record.(outcome := outcome); }
      if nextAction != "" { record := record.(nextAction := nextAction); }
      record := record.(revision := record.revision + 1, updatedAt := now);
      commitments := commitments[record.id := record];
      Save();
      refusal := None;
    }

    method RecordDelivery(id: Id, messageId: string)
      modifies this
      ensures View() == Delivered(old(View()), id, messageId)
    {
      if id !in commitments || commitments[id].checkin.None? { return; }
      var record := commitments[id];
      record := record.(checkin := Some(record.checkin.value.(messageId := messageId)));
      commitments := commitments[record.id := record];
      Save();
    }

    method Delete(id: Id) returns (found: bool)
      modifies this
      ensures View() == Deleted(old(View()), id) && found == (id in old(commitments))
    {
      if id !in commitments { return false; }
      commitments := commitments - {id};
      sends := OtherSends(sends, id);
      Save();
      found := true;
    }

    method ClaimCheckin(id: Id, calendar: Calendar, now: Stamp) returns (result: Result<Key, Silence>)
      modifies this
      ensures (View(), result) == Claimed(old(View()), id, calendar, now)
      ensures result.Ok? <==> MayAsk(old(View()), id, calendar, now)
    {
      ClaimWinsIff(View(), id, calendar, now);
      if id !in commitments { return Err(NoCommitment); }
      var record := commitments[id];
      var silence := WhySilent(View(), record, calendar, now);
      if silence.Some? {
        var reason := silence.value;
        if reason == PolicyChanged {
          record := record.(policyVersion := Some(policy.version), updatedAt := now);
          commitments := commitments[record.id := record];
          Save();
        } else if reason == StillOpen {
          record := AgedOut(View(), record, now);
          commitments := commitments[record.id := record];
          Save();
        } else if reason == CheckInExpired {
          var missed := MarkedMissed(View(), record, now);
          if missed.Some? {
            commitments := commitments[missed.value.id := missed.value];
            Save();
          }
        }
        return Err(reason);
      }
      var key := CheckinKey(record);
      sends := sends + [Send(key, now, record.chat, record.id)];
      if record.status == Snoozed {
        record := record.(status := Active);
      }
      record := record.(checkin := Some(Checkin(key, Some(now), "", None, None)), updatedAt := now);
      commitments := commitments[record.id := record];
      Save();
      result := Ok(key);
    }
  }

  /** Proactive contact is off until the user turns it on. */
  function Blank(): State {
    State(map[], map[], Policy(false, 1, 720, false, 360, 1), [])
  }
}

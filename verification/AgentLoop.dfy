/** The agent's tool-calling loop. The model, the tools, the user and the clock are one arbitrary environment,
    consulted in turn; every history handed to the model is noted in `requests`. */
module AgentLoop {
  import opened Outcomes
  import opened Transcript
  import opened Compaction
  import opened ToolBatch

  datatype StopReason = EndTurn | ToolCalls | MaxTokens | Interrupted

  /** A provider never puts results into an assistant turn. */
  type ReplyBlock = b: Block | !b.ToolResult? witness Text("")

  /** A model call returns or raises; only provider errors are looked at for overflow. */
  datatype Reply = Said(content: seq<ReplyBlock>, stop: StopReason) | Raised(provider: bool, overflow: bool)

  datatype ToolOutcome = Ran(content: string, isError: bool) | Threw(reason: string)

  /** Everything the loop does not decide, by the moment it is asked. */
  datatype Environment = Environment(
    reply: nat -> Reply,
    summary: nat -> Option<string>,
    aborted: nat -> bool,
    typed: nat -> string,
    outcome: nat -> ToolOutcome,
    oversized: nat -> bool,
    finished: nat -> seq<set<nat>>,   // which concurrent calls are done at each successive wait
    eligible: Block -> bool,
    cost: Message -> nat)

  datatype LastStop = Normal | Aborted | TokenLimit | TurnLimit

  const MAX_COMPACT_RETRIES := 2

  // -- calls and their answers -----------------------------------------------------------

  function Calls(blocks: seq<Block>): (r: seq<Block>)
    ensures forall b :: b in r ==> b.ToolUse?
  {
    if blocks == [] then []
    else (if blocks[0].ToolUse? then [blocks[0]] else []) + Calls(blocks[1..])
  }

  /** A call as it is stored and run: without the private mark. */
  function Unmark(b: Block): Block {
    if b.ToolUse? then b.(marked := false) else b
  }

  function Stored(blocks: seq<Block>): seq<Block> {
    if blocks == [] then [] else [Unmark(blocks[0])] + Stored(blocks[1..])
  }

  /** One result for each call, in order. */
  predicate Answer(results: seq<Block>, calls: seq<Block>) {
    && |results| == |calls|
    && forall k :: 0 <= k < |calls| ==>
         calls[k].ToolUse? && results[k].ToolResult? && results[k].answers == calls[k].id
  }

  /** Storing a reply drops the marks and nothing else. */
  lemma {:induction false} StoredIds(blocks: seq<Block>)
    ensures UseIds(Stored(blocks)) == UseIds(blocks) && ResultIds(Stored(blocks)) == ResultIds(blocks)
    ensures Unmarked(Stored(blocks))
  {
    if blocks != [] {
      StoredIds(blocks[1..]);
      assert Stored(blocks)[1..] == Stored(blocks[1..]);
      assert forall b :: b in Stored(blocks) ==> b == Unmark(blocks[0]) || b in Stored(blocks[1..]);
    }
  }

  lemma {:induction false} NoResultIds(blocks: seq<Block>)
    requires forall b :: b in blocks ==> !b.ToolResult?
    ensures ResultIds(blocks) == []
  {
    if blocks != [] {
      NoResultIds(blocks[1..]);
    }
  }

  lemma {:induction false} CallIds(blocks: seq<Block>)
    ensures UseIds(Calls(blocks)) == UseIds(blocks) && |Calls(blocks)| == |UseIds(blocks)|
    ensures forall b :: b in Calls(blocks) ==> b in blocks
  {
    if blocks != [] {
      CallIds(blocks[1..]);
      var head := if blocks[0].ToolUse? then [blocks[0]] else [];
      UseIdsConcat(head, Calls(blocks[1..]));
      assert blocks[0].ToolUse? ==> head[1..] == [];
      assert forall b :: b in Calls(blocks) ==> b in head || b in Calls(blocks[1..]);
    }
  }

  /** Answers carry exactly the ids of the calls, and ask nothing themselves. */
  lemma {:induction false} AnswerIds(results: seq<Block>, calls: seq<Block>)
    requires Answer(results, calls)
    ensures ResultIds(results) == UseIds(calls) && UseIds(results) == []
    ensures Unmarked(results)
  {
    if calls != [] {
      assert calls[0].ToolUse?;
      forall k | 0 <= k < |calls| - 1
        ensures calls[1..][k].ToolUse? && results[1..][k].ToolResult? && results[1..][k].answers == calls[1..][k].id
      {
        assert calls[k + 1].ToolUse?;
      }
      AnswerIds(results[1..], calls[1..]);
    }
  }

  lemma AnswerConcat(r1: seq<Block>, c1: seq<Block>, r2: seq<Block>, c2: seq<Block>)
    requires Answer(r1, c1) && Answer(r2, c2)
    ensures Answer(r1 + r2, c1 + c2)
  {
    forall k | 0 <= k < |c1 + c2|
      ensures (c1 + c2)[k].ToolUse? && (r1 + r2)[k].ToolResult? && (r1 + r2)[k].answers == (c1 + c2)[k].id
    {
      if k >= |c1| {
        assert c2[k - |c1|].ToolUse?;
      }
    }
  }

  /** A turn of calls followed by its answers leaves the history ready to be sent again. */
  lemma AnsweredSendable(ms: seq<Message>, content: seq<Block>, stored: seq<Block>, results: seq<Block>)
    requires WellPaired(ms) && (forall b :: b in content ==> !b.ToolResult?)
    requires stored == content || stored == Stored(content)
    requires Answer(results, Calls(content)) && Calls(content) != []
    ensures Sendable(ms + [Message(Assistant, Blocks(stored))] + [Message(User, Blocks(results))])
  {
    var said, answer := Message(Assistant, Blocks(stored)), Message(User, Blocks(results));
    NoResultIds(content);
    StoredIds(content);
    CallIds(content);
    AnswerIds(results, Calls(content));
    AlignedAppend(ms, said);
    AlignedAppend(ms + [said], answer);
  }

  /** A turn without calls closes the exchange. */
  lemma SaidPaired(ms: seq<Message>, content: seq<Block>, stored: seq<Block>)
    requires WellPaired(ms) && (forall b :: b in content ==> !b.ToolResult?) && Calls(content) == []
    requires stored == content || stored == Stored(content)
    ensures WellPaired(ms + [Message(Assistant, Blocks(stored))])
  {
    NoResultIds(content);
    StoredIds(content);
    CallIds(content);
    AlignedAppend(ms, Message(Assistant, Blocks(stored)));
  }

  /** Whether the `k`-th of the calls was cut off: it carries the mark, or it ends a reply that hit the token limit. */
  predicate CutOff(content: seq<Block>, stop: StopReason, calls: seq<Block>, k: nat)
    requires k < |calls|
  {
    || (calls[k].ToolUse? && calls[k].marked)
    || (stop == MaxTokens && content != [] && content[|content| - 1].ToolUse? && k == |calls| - 1)
  }

  function CutFlags(content: seq<Block>, stop: StopReason, calls: seq<Block>): (r: seq<bool>)
    ensures |r| == |calls|
    ensures forall k :: 0 <= k < |calls| && calls[k].ToolUse? && calls[k].marked ==> r[k]
  {
    seq(|calls|, k requires 0 <= k < |calls| => CutOff(content, stop, calls, k))
  }

  /** Of the first `n` calls, those that are whole. */
  function Kept(calls: seq<Block>, cut: seq<bool>, n: nat): seq<Block>
    requires n <= |calls| == |cut|
  {
    if n == 0 then []
    else Kept(calls, cut, n - 1) + if cut[n - 1] then [] else [Unmark(calls[n - 1])]
  }

  lemma {:induction false} KeptPrefix(calls: seq<Block>, cut: seq<bool>, n: nat)
    requires n <= |calls| == |cut|
    ensures Kept(calls, cut, n) <= Kept(calls, cut, |calls|)
    decreases |calls| - n
  {
    if n < |calls| {
      KeptPrefix(calls, cut, n + 1);
    }
  }

  lemma {:induction false} KeptAreWhole(calls: seq<Block>, cut: seq<bool>, n: nat)
    requires n <= |calls| == |cut| && forall b :: b in calls ==> b.ToolUse?
    ensures forall b :: b in Kept(calls, cut, n) ==> b.ToolUse? && !b.marked
  {
    if n > 0 {
      KeptAreWhole(calls, cut, n - 1);
      assert calls[n - 1] in calls;
    }
  }

  // The fixed texts of the loop; the long ones are abridged to what they begin with.
  const CUT_OFF_NOTICE := "output_truncated"
  const ABORT_NOTICE := "aborted"
  const GRACE_NOTICE := "turn budget exhausted; not executed"
  const GRACE_PROMPT := "[birkin] You've hit the maximum number"
  const BLOCKED_NOTICE := "unavailable for this untrusted turn"
  const CARRIED_NOTE := "\n\n[carried over from mid-turn]\n"
  const STEER_NOTE := "[birkin: mid-turn message from the user"

  function Refusals(calls: seq<Block>, reason: string): (r: seq<Block>)
    requires forall b :: b in calls ==> b.ToolUse?
    ensures Answer(r, calls)
  {
    seq(|calls|, k requires 0 <= k < |calls| => ToolResult(calls[k].id, reason, true))
  }

  /** Every history handed to the model was fit to be sent, and unmarked where that is asked. */
  ghost predicate SentWell(requests: seq<seq<Message>>, clean: bool) {
    forall r :: r in requests ==> Sendable(r) && (clean ==> Clean(r))
  }

  /** Nothing the executor was offered had been cut off. */
  predicate AllWhole(offered: seq<Block>) {
    forall b :: b in offered ==> b.ToolUse? && !b.marked
  }

  /** What holds between requests: the history is well paired, everything sent was fit, nothing cut off ran. */
  ghost predicate Healthy(a: Agent, clean: bool)
    reads a
  {
    WellPaired(a.messages) && SentWell(a.requests, clean) && AllWhole(a.offered)
  }

  /** How a run leaves the history marked: exactly as the raw reply of a last, tool-free call was, if there was one.
      A run that is out of turns makes that call, unless it is aborted or the model raises. */
  ghost predicate LastWord(a: Agent, clean: bool, last: Option<seq<Block>>)
    reads a
  {
    && (clean ==> (Clean(a.messages) <==> last.None? || Unmarked(last.value)))
    && (last.Some? ==> a.lastStop == TurnLimit)
    && (a.lastStop == TurnLimit ==> HasReplied(a.env, last))
    && (a.maxTurns == 0 ==> a.lastStop == TurnLimit)
  }

  /** A reply is the model's; without one there was an abort, or the model raised. */
  ghost predicate HasReplied(env: Environment, reply: Option<seq<Block>>) {
    match reply
    case Some(content) => exists t :: env.reply(t).Said? && env.reply(t).content == content
    case None => exists t :: env.aborted(t) || env.reply(t).Raised?
  }

  /** What waits for the model once `typed` has come in behind `waiting`: everything, in order, on lines of its own. */
  function Queued(waiting: string, typed: string): (r: string)
    ensures waiting <= r && |r| >= |typed| && r[|r| - |typed|..] == typed
    ensures typed == "" ==> r == waiting
  {
    if typed == "" then waiting else if waiting == "" then typed else waiting + "\n" + typed
  }

  /** A request with what was typed before it. */
  function Asked(userText: string, carried: string): (r: string)
    ensures userText <= r && |r| >= |carried| && r[|r| - |carried|..] == carried
    ensures carried == "" ==> r == userText
  {
    if carried == "" then userText else userText + CARRIED_NOTE + carried
  }

  /** What a tool call may be answered with: what the tool said or why it failed, a refusal of a blocked tool, or, if the
      user ever aborts, that it was aborted. */
  ghost predicate FromTool(env: Environment, blocked: set<string>, call: Block, result: Block)
    requires call.ToolUse?
  {
    || (result == ToolResult(call.id, ABORT_NOTICE, true) && exists t :: env.aborted(t))
    || (call.name in blocked && result == ToolResult(call.id, BLOCKED_NOTICE, true))
    || (call.name !in blocked && exists t :: match env.outcome(t)
          case Ran(content, isError) => result == ToolResult(call.id, content, isError)
          case Threw(reason) => result == ToolResult(call.id, reason, true))
  }

  /** One answer for each call, in order, and each from its tool. */
  ghost predicate Served(env: Environment, blocked: set<string>, calls: seq<Block>, results: seq<Block>) {
    Answer(results, calls) && forall k :: 0 <= k < |calls| ==> FromTool(env, blocked, calls[k], results[k])
  }

  lemma ServedConcat(env: Environment, blocked: set<string>, c1: seq<Block>, r1: seq<Block>, c2: seq<Block>, r2: seq<Block>)
    requires Served(env, blocked, c1, r1) && Served(env, blocked, c2, r2)
    ensures Served(env, blocked, c1 + c2, r1 + r2)
  {
    AnswerConcat(r1, c1, r2, c2);
    forall k | 0 <= k < |c1 + c2| ensures (c1 + c2)[k].ToolUse? && FromTool(env, blocked, (c1 + c2)[k], (r1 + r2)[k]) {
      if k < |c1| {
        assert FromTool(env, blocked, c1[k], r1[k]);
      } else {
        assert FromTool(env, blocked, c2[k - |c1|], r2[k - |c1|]);
      }
    }
  }

  function Last(ms: seq<Message>): Message {
    if ms == [] then Message(User, Plain("")) else ms[|ms| - 1]
  }

  /** From the `from`-th on, every history sent ends with what `m` says. */
  ghost predicate AskedAbout(requests: seq<seq<Message>>, from: nat, m: Message) {
    forall k | from <= k < |requests| :: requests[k] != [] && EndsWith(Last(requests[k]), m)
  }

  lemma AskedOnce(requests: seq<seq<Message>>, from: nat, m: Message)
    requires requests != [] && AskedAbout(requests[..|requests| - 1], from, m)
    requires requests[|requests| - 1] != [] && EndsWith(Last(requests[|requests| - 1]), m)
    ensures AskedAbout(requests, from, m)
  {
    forall k | from <= k < |requests| ensures requests[k] != [] && EndsWith(Last(requests[k]), m) {
      if k < |requests| - 1 {
        assert requests[..|requests| - 1][k] == requests[k];
      }
    }
  }

  lemma StillAbout(requests: seq<seq<Message>>, from: nat, m: Message, n: Message)
    requires AskedAbout(requests, from, m) && EndsWith(m, n)
    ensures AskedAbout(requests, from, n)
  {
    forall k | from <= k < |requests| ensures requests[k] != [] && EndsWith(Last(requests[k]), n) {
      EndsWithTrans(Last(requests[k]), m, n);
    }
  }

  lemma FitToSend(ms: seq<Message>, out: seq<Message>, n: nat)
    requires Sendable(ms) && Descends(ms, out, n)
    ensures Sendable(out) && (Clean(ms) ==> Clean(out)) && |out| <= |ms| && EndsWith(Last(out), Last(ms))
  {
    DescendsFit(ms, out, n);
  }

  /** The user's turn `m` holds block `b`. */
  predicate Tells(m: Message, b: Block) {
    m.role == User && m.content.Blocks? && b in m.content.blocks
  }

  lemma StillTells(m: Message, n: Message, b: Block)
    requires EndsWith(m, n) && Tells(n, b)
    ensures Tells(m, b)
  {
  }

  lemma SteeredTells(ms: seq<Message>, text: string, b: Block)
    requires ms != [] && Tells(Last(ms), b)
    ensures Tells(Last(WithUserText(ms, text)), b)
  {
  }

  /** If anything is sent at all, the first request ends in a turn of the user's that holds `b`. */
  ghost predicate FirstTells(requests: seq<seq<Message>>, from: nat, b: Block) {
    |requests| > from ==> requests[from] != [] && Tells(Last(requests[from]), b)
  }

  /** The same once more has been sent since: what `ms` asked before, the first of the new requests asks. */
  ghost predicate AskedFirst(ms: seq<Message>, requests: seq<seq<Message>>, requestsAfter: seq<seq<Message>>, asked: Block) {
    requests <= requestsAfter && (ms != [] && Tells(Last(ms), asked) ==> FirstTells(requestsAfter, |requests|, asked))
  }

  lemma AsksOn(start: seq<Message>, sent: seq<seq<Message>>, ms: seq<Message>, requests: seq<seq<Message>>,
               requestsAfter: seq<seq<Message>>, asked: Block)
    requires (ms == start && requests == sent) || (sent < requests && AskedFirst(start, sent, requests, asked))
    requires AskedFirst(ms, requests, requestsAfter, asked)
    ensures AskedFirst(start, sent, requestsAfter, asked)
  {
  }

  lemma AboutAsks(ms: seq<Message>, more: seq<Message>, requests: seq<seq<Message>>, requestsAfter: seq<seq<Message>>, asked: Block)
    requires requests <= requestsAfter && AskedAbout(requestsAfter, |requests|, Last(more))
    requires more == ms || exists text :: more == WithUserText(ms, text)
    ensures AskedFirst(ms, requests, requestsAfter, asked)
  {
    if ms != [] && Tells(Last(ms), asked) && |requestsAfter| > |requests| {
      if more != ms {
        var text :| more == WithUserText(ms, text);
        SteeredTells(ms, text, asked);
      }
      StillTells(Last(requestsAfter[|requests|]), Last(more), asked);
    }
  }

  /** The history as the model gets to see it: what the user typed meanwhile goes in front of the next call. */
  function Steered(ms: seq<Message>, steer: string): seq<Message> {
    if steer == "" then ms else WithUserText(ms, STEER_NOTE + "\n" + steer)
  }

  /** A history with a reply that is not acted on: stored, with one refusal for each of its calls behind it. */
  function Refused(ms: seq<Message>, content: seq<Block>, stored: seq<Block>, reason: string): seq<Message> {
    var said := ms + [Message(Assistant, Blocks(stored))];
    if Calls(content) == [] then said else said + [Message(User, Blocks(Refusals(Calls(content), reason)))]
  }

  /** The answers to a reply that is acted on: cut-off calls are refused, the others answered by their tools. */
  ghost predicate AnsweredBy(env: Environment, blocked: set<string>, content: seq<Block>, stop: StopReason, results: seq<Block>) {
    var calls := Calls(content);
    var cut := CutFlags(content, stop, calls);
    && Answer(results, calls)
    && forall k :: 0 <= k < |calls| ==>
         if cut[k] then results[k] == ToolResult(calls[k].id, CUT_OFF_NOTICE, true)
         else FromTool(env, blocked, Unmark(calls[k]), results[k])
  }

  /** The last call of a run: everything sent for it ends in the prompt. If nothing came of it the history is as before,
      and otherwise the reply is stored behind what was sent, as it came, and its calls are refused. */
  ghost predicate SpokenLast(ms: seq<Message>, requests: seq<seq<Message>>, after: seq<Message>, requestsAfter: seq<seq<Message>>,
                             reply: Option<seq<Block>>, text: string)
  {
    && requests <= requestsAfter && AskedAbout(requestsAfter, |requests|, Last(WithUserText(ms, GRACE_PROMPT)))
    && match reply
       case None => after == ms && text == ""
       case Some(content) =>
         && requests < requestsAfter && text == TextOf(content)
         && after == Refused(requestsAfter[|requestsAfter| - 1], content, content, GRACE_NOTICE)
  }

  lemma SpokeNothing(ms: seq<Message>, requests: seq<seq<Message>>, after: seq<Message>, requestsAfter: seq<seq<Message>>)
    requires requests <= requestsAfter && AskedAbout(requestsAfter, |requests|, Last(WithUserText(ms, GRACE_PROMPT)))
    requires after == ms
    ensures SpokenLast(ms, requests, after, requestsAfter, None, "")
  {
  }

  lemma Spoke(ms: seq<Message>, requests: seq<seq<Message>>, after: seq<Message>, requestsAfter: seq<seq<Message>>,
              content: seq<Block>, sent: seq<Message>)
    requires requests < requestsAfter && AskedAbout(requestsAfter, |requests|, Last(WithUserText(ms, GRACE_PROMPT)))
    requires requestsAfter[|requestsAfter| - 1] == sent && after == Refused(sent, content, content, GRACE_NOTICE)
    ensures SpokenLast(ms, requests, after, requestsAfter, Some(content), TextOf(content))
  {
  }

  /** How a reply is taken in: stored without its marks, and either refused or answered as a whole. */
  ghost predicate TakenIn(env: Environment, blocked: set<string>, before: seq<Message>, content: seq<Block>, stop: StopReason,
                          after: seq<Message>, executed: bool, answers: seq<Block>)
  {
    if !executed then after == Refused(before, content, Stored(content), ABORT_NOTICE)
    else
      && AnsweredBy(env, blocked, content, stop, answers)
      && after == before + [Message(Assistant, Blocks(Stored(content)))] + [Message(User, Blocks(answers))]
  }

  /** What is left to say of a run's text: the last reply that says something. */
  function Latest(content: seq<Block>, text: string): string {
    if TextOf(content) != "" then TextOf(content) else text
  }

  /** What a turn came to once it was sent: the model failed, or its reply was taken in behind what was sent. */
  ghost predicate Taken(env: Environment, blocked: set<string>, sent: seq<Message>, after: seq<Message>, at: nat, text: string, p: Progress, answers: seq<Block>) {
    match env.reply(at)
    case Raised(_, _) => p == Failed && after == sent
    case Said(content, stop) =>
      && (p == Stop(Latest(content, text)) || p == Continue(Latest(content, text)))
      && TakenIn(env, blocked, sent, content, stop, after, p.Continue?, answers)
  }

  lemma SaidTaken(env: Environment, blocked: set<string>, sent: seq<Message>, after: seq<Message>, at: nat, text: string, p: Progress, answers: seq<Block>)
    requires env.reply(at).Said?
    requires var (content, stop) := (env.reply(at).content, env.reply(at).stop);
      (p == Stop(Latest(content, text)) || p == Continue(Latest(content, text))) && TakenIn(env, blocked, sent, content, stop, after, p.Continue?, answers)
    ensures Taken(env, blocked, sent, after, at, text, p, answers)
  {
  }

  lemma RaisedTaken(env: Environment, blocked: set<string>, sent: seq<Message>, at: nat, text: string)
    requires env.reply(at).Raised?
    ensures Taken(env, blocked, sent, sent, at, text, Failed, [])
  {
  }

  /** A turn that reaches the model: everything sent ends with the last turn of the history, and the last request was taken. */
  ghost predicate Conversed(env: Environment, blocked: set<string>, ms: seq<Message>, requests: seq<seq<Message>>,
                            after: seq<Message>, requestsAfter: seq<seq<Message>>, at: nat, text: string, p: Progress,
                            answers: seq<Block>)
  {
    && requests < requestsAfter && AskedAbout(requestsAfter, |requests|, Last(ms))
    && Taken(env, blocked, requestsAfter[|requestsAfter| - 1], after, at, text, p, answers)
  }

  /** `sent` is what was sent last, and everything sent ends with the last turn of `ms`. */
  ghost predicate SentLast(ms: seq<Message>, requests: seq<seq<Message>>, requestsAfter: seq<seq<Message>>, sent: seq<Message>) {
    && requests < requestsAfter && AskedAbout(requestsAfter, |requests|, Last(ms))
    && requestsAfter[|requestsAfter| - 1] == sent
  }

  lemma Converses(env: Environment, blocked: set<string>, ms: seq<Message>, requests: seq<seq<Message>>,
                  after: seq<Message>, requestsAfter: seq<seq<Message>>, at: nat, text: string, p: Progress, answers: seq<Block>,
                  sent: seq<Message>)
    requires SentLast(ms, requests, requestsAfter, sent) && Taken(env, blocked, sent, after, at, text, p, answers)
    ensures Conversed(env, blocked, ms, requests, after, requestsAfter, at, text, p, answers)
  {
  }

  lemma ConversedAsks(env: Environment, blocked: set<string>, ms: seq<Message>, steer: string, requests: seq<seq<Message>>,
                      after: seq<Message>, requestsAfter: seq<seq<Message>>, at: nat, text: string, p: Progress, answers: seq<Block>,
                      asked: Block)
    requires Conversed(env, blocked, Steered(ms, steer), requests, after, requestsAfter, at, text, p, answers)
    ensures AskedFirst(ms, requests, requestsAfter, asked)
  {
    AboutAsks(ms, Steered(ms, steer), requests, requestsAfter, asked);
  }

  class Agent {
    const env: Environment
    const maxTurns: nat
    const autoCompact: bool
    const parallelTools: bool
    const tailBudget: int
    var messages: seq<Message>
    var compactFloor: nat
    var blocked: set<string>
    var trusted: bool
    var pendingSteer: string
    var lastStop: LastStop
    var clock: nat
    ghost var requests: seq<seq<Message>>
    ghost var offered: seq<Block>

    constructor (env: Environment, maxTurns: nat, autoCompact: bool, parallelTools: bool, tailBudget: int)
      ensures messages == [] && WellPaired(messages) && Clean(messages) && requests == [] && offered == []
      ensures this.env == env && this.maxTurns == maxTurns
    {
      this.env := env;
      this.maxTurns := maxTurns;
      this.autoCompact := autoCompact;
      this.parallelTools := parallelTools;
      this.tailBudget := tailBudget;
      messages, requests, offered := [], [], [];
      compactFloor, clock, blocked, trusted, pendingSteer, lastStop := 0, 0, {}, true, "", Normal;
    }

    // -- the environment ---------------------------------------------------------------

    method PollAbort() returns (set_: bool)
      modifies this`clock
      ensures set_ == env.aborted(old(clock)) && clock == old(clock) + 1
    {
      set_ := env.aborted(clock);
      clock := clock + 1;
    }

    /** Queues an instruction for the running turn; blank text is refused, earlier text is kept. */
    method Steer(text: string) returns (ok: bool)
      modifies this`pendingSteer
      ensures ok == (text != "")
      ensures pendingSteer == Queued(old(pendingSteer), text)
    {
      ok := text != "";
      if ok {
        pendingSteer := if pendingSteer == "" then text else pendingSteer + "\n" + text;
      }
    }

    /** Takes everything queued, including what other threads queued since the last look. */
    method DrainSteer() returns (text: string)
      modifies this`pendingSteer, this`clock
      ensures pendingSteer == "" && text == Queued(old(pendingSteer), env.typed(old(clock)))
      ensures clock == old(clock) + 1
    {
      var queued := Steer(env.typed(clock));
      clock := clock + 1;
      text := pendingSteer;
      pendingSteer := "";
    }

    // -- compaction ------------------------------------------------------------------

    /** The history has grown since compaction last found nothing to do, and there is something to do. */
    ghost predicate CanCompact(ms: seq<Message>, floor: nat, t: nat) {
      |ms| > floor && Compactable(env.cost, ms, 2, tailBudget, env.summary(t))
    }

    /** True exactly when the history was replaced, and then it is shorter: compaction cannot go on for ever. */
    method CompactNow() returns (shrunk: bool)
      modifies this`messages, this`compactFloor, this`clock
      ensures !shrunk ==> messages == old(messages)
      ensures |old(messages)| <= old(compactFloor) ==> !shrunk && compactFloor == old(compactFloor)
      ensures !shrunk && |old(messages)| > old(compactFloor) ==> compactFloor == |messages|
      ensures shrunk ==> compactFloor == 0
      ensures shrunk ==> Descends(old(messages), messages, 1)
      ensures shrunk <==> CanCompact(old(messages), old(compactFloor), old(clock))
    {
      if |messages| <= compactFloor {
        return false;
      }
      var r := Compact(env.cost, messages, 2, tailBudget, env.summary(clock));
      clock := clock + 1;
      if r.Unchanged? {
        compactFloor := |messages|;
        return false;
      }
      DescendsOnce(messages, r.messages);
      messages := r.messages;
      compactFloor := 0;
      return true;
    }

    /** One model call behind the two compaction gates. */
    method Complete(ghost clean: bool) returns (r: Reply, ghost at: nat)
      requires Sendable(messages) && (clean ==> Clean(messages)) && SentWell(requests, clean)
      modifies this`messages, this`compactFloor, this`clock, this`requests
      ensures Sendable(messages) && |messages| <= |old(messages)|
      ensures (clean ==> Clean(messages)) && SentWell(requests, clean)
      ensures exists n: nat :: n <= 1 + MAX_COMPACT_RETRIES && Descends(old(messages), messages, n)
      ensures old(requests) < requests && |requests| <= |old(requests)| + 1 + MAX_COMPACT_RETRIES
      ensures requests[|requests| - 1] == messages
      ensures AskedAbout(requests, |old(requests)|, Last(old(messages)))
      ensures r == env.reply(at)
      ensures r.Raised? && r.provider && r.overflow && autoCompact ==>
        |requests| == |old(requests)| + 1 + MAX_COMPACT_RETRIES || |messages| <= compactFloor
    {
      ghost var start, sent := messages, requests;
      ghost var first := CompactAhead();
      ghost var ready := messages;
      FitToSend(start, ready, first);
      ghost var n;
      r, at, n := SendUntilDone(clean);
      DescendsAfter(start, ready, messages, first, n);
      StillAbout(requests, |sent|, Last(ready), Last(start));
    }

    /** The call itself, repeated while there is an overflow to make room for. */
    method SendUntilDone(ghost clean: bool) returns (r: Reply, ghost at: nat, ghost n: nat)
      requires Sendable(messages) && (clean ==> Clean(messages)) && SentWell(requests, clean)
      modifies this`messages, this`compactFloor, this`clock, this`requests
      ensures Sendable(messages) && |messages| <= |old(messages)|
      ensures (clean ==> Clean(messages)) && SentWell(requests, clean)
      ensures n <= MAX_COMPACT_RETRIES && Descends(old(messages), messages, n)
      ensures old(requests) < requests && |requests| <= |old(requests)| + 1 + MAX_COMPACT_RETRIES
      ensures requests[|requests| - 1] == messages
      ensures AskedAbout(requests, |old(requests)|, Last(old(messages)))
      ensures r == env.reply(at)
      ensures r.Raised? && r.provider && r.overflow && autoCompact ==>
        |requests| == |old(requests)| + 1 + MAX_COMPACT_RETRIES || |messages| <= compactFloor
    {
      ghost var start, sent := messages, requests;
      var attempts := 0;
      n := 0;
      DescendsNone(start);
      while true
        invariant 0 <= attempts <= MAX_COMPACT_RETRIES && n == attempts
        invariant Descends(start, messages, n)
        invariant |requests| == |sent| + attempts && sent <= requests
        invariant SentWell(requests, clean) && AskedAbout(requests, |sent|, Last(start))
        decreases MAX_COMPACT_RETRIES - attempts
      {
        FitToSend(start, messages, n);
        r, at := AskFitly(clean);
        AskedOnce(requests, |sent|, Last(start));
        attempts := attempts + 1;
        ghost var before := messages;
        var again := TryAgain(attempts, r);
        if !again {
          return;
        }
        DescendsMore(start, before, messages, n);
        n := n + 1;
      }
    }

    /** A call is repeated only after an overflow, and only once room was made. */
    method TryAgain(attempts: nat, r: Reply) returns (again: bool)
      modifies this`messages, this`compactFloor, this`clock
      ensures !again ==> messages == old(messages)
      ensures again ==> attempts <= MAX_COMPACT_RETRIES && Descends(old(messages), messages, 1)
      ensures !again && r.Raised? && r.provider && r.overflow && autoCompact ==>
        attempts > MAX_COMPACT_RETRIES || |messages| <= compactFloor
    {
      if r.Said? || !r.provider {
        return false;
      }
      again := MakeRoom(attempts, r.overflow);
    }

    /** The same, as far as the loop cares: however often it was compacted and repeated, what was sent last is what the
        history reads, and everything sent ends with what it ended with before. */
    method Consult(ghost clean: bool) returns (r: Reply, ghost at: nat)
      requires Sendable(messages) && (clean ==> Clean(messages)) && SentWell(requests, clean)
      modifies this`messages, this`compactFloor, this`clock, this`requests
      ensures Sendable(messages) && (clean ==> Clean(messages)) && SentWell(requests, clean)
      ensures SentLast(old(messages), old(requests), requests, messages)
      ensures r == env.reply(at)
    {
      r, at := Complete(clean);
    }

    /** The second gate: after an overflow the history is compacted and the call repeated, a bounded number of times. */
    method MakeRoom(attempts: nat, overflow: bool) returns (again: bool)
      modifies this`messages, this`compactFloor, this`clock
      ensures !again ==> messages == old(messages)
      ensures again ==> Descends(old(messages), messages, 1)
      ensures again <==> attempts <= MAX_COMPACT_RETRIES && autoCompact && overflow
                         && CanCompact(old(messages), old(compactFloor), old(clock))
      ensures !again && autoCompact && overflow ==> attempts > MAX_COMPACT_RETRIES || |messages| <= compactFloor
    {
      if attempts > MAX_COMPACT_RETRIES || !autoCompact || !overflow {
        return false;
      }
      again := CompactNow();
    }

    /** The preflight gate: a request estimated too large is compacted before it is sent. */
    method CompactAhead() returns (ghost n: nat)
      modifies this`messages, this`compactFloor, this`clock
      ensures n <= 1 && Descends(old(messages), messages, n)
      ensures n > 0 <==> autoCompact && |old(messages)| >= 8 && env.oversized(old(clock))
                         && CanCompact(old(messages), old(compactFloor), old(clock) + 1)
    {
      n := 0;
      DescendsNone(messages);
      if autoCompact && |messages| >= 8 {
        var oversized := env.oversized(clock);
        clock := clock + 1;
        if oversized {
          var shrunk := CompactNow();
          if shrunk {
            n := 1;
          }
        }
      }
    }

    /** Hands the history to the model. */
    method Ask() returns (r: Reply)
      modifies this`clock, this`requests
      ensures requests == old(requests) + [messages] && r == env.reply(old(clock))
    {
      requests := requests + [messages];
      r := env.reply(clock);
      clock := clock + 1;
    }

    /** The same with a history fit to be sent: so is then everything that was ever sent. */
    method AskFitly(ghost clean: bool) returns (r: Reply, ghost at: nat)
      requires Sendable(messages) && (clean ==> Clean(messages)) && SentWell(requests, clean)
      modifies this`clock, this`requests
      ensures requests == old(requests) + [messages] && SentWell(requests, clean) && r == env.reply(at)
    {
      at := clock;
      r := Ask();
    }

    // -- tools -------------------------------------------------------------------------

    /** One call, one result, whatever the tool does. A blocked tool is refused. */
    method RunOne(call: Block) returns (result: Block)
      requires call.ToolUse?
      modifies this`clock
      ensures result.ToolResult? && result.answers == call.id && FromTool(env, blocked, call, result)
    {
      if call.name in blocked {
        return ToolResult(call.id, BLOCKED_NOTICE, true);
      }
      var outcome := env.outcome(clock);
      clock := clock + 1;
      match outcome {
        case Ran(content, isError) => result := ToolResult(call.id, content, isError);
        case Threw(reason) => result := ToolResult(call.id, reason, true);
      }
    }

    /** In order; once the user aborts, the rest is answered without being run. */
    method RunSequential(calls: seq<Block>) returns (results: seq<Block>)
      requires forall b :: b in calls ==> b.ToolUse?
      modifies this`clock
      ensures Served(env, blocked, calls, results)
    {
      results := [];
      var i := 0;
      while i < |calls|
        invariant 0 <= i <= |calls|
        invariant Served(env, blocked, calls[..i], results)
      {
        var aborted := PollAbort();
        var result := ToolResult(calls[i].id, ABORT_NOTICE, true);
        if !aborted {
          result := RunOne(calls[i]);
        }
        assert FromTool(env, blocked, calls[i], result);
        ServedConcat(env, blocked, calls[..i], results, [calls[i]], [result]);
        assert calls[..i + 1] == calls[..i] + [calls[i]];
        results := results + [result];
        i := i + 1;
      }
      assert calls[..i] == calls;
    }

    /** Fills the slots of the calls in `done`. */
    method Collect(calls: seq<Block>, slots: array<Option<Block>>, done: set<nat>)
      requires slots.Length == |calls| && (forall b :: b in calls ==> b.ToolUse?)
      requires forall i :: i in done ==> i < |calls|
      requires SlotsFit(env, blocked, slots[..], calls)
      modifies this`clock, slots
      ensures SlotsFit(env, blocked, slots[..], calls)
      ensures forall i :: 0 <= i < |calls| && i !in done ==> slots[i] == old(slots[i])
      ensures forall i :: i in done ==> slots[i].Some?
    {
      var left := done;
      while left != {}
        invariant left <= done && SlotsFit(env, blocked, slots[..], calls)
        invariant forall i :: 0 <= i < |calls| && i !in done ==> slots[i] == old(slots[i])
        invariant forall i :: i in done - left ==> slots[i].Some?
        decreases |left|
      {
        var i :| i in left;
        var result := RunOne(calls[i]);
        slots[i] := Some(result);
        left := left - {i};
      }
    }

    /** Concurrent calls finish in any order, at any of the waits, or never if the user aborts: the results
        still come out one per call, in emission order. */
    method RunParallel(calls: seq<Block>) returns (results: seq<Block>)
      requires forall b :: b in calls ==> b.ToolUse?
      modifies this`clock
      ensures Served(env, blocked, calls, results)
    {
      var slots := new Option<Block>[|calls|](_ => None);
      var waits := env.finished(clock);
      clock := clock + 1;
      var pending := Indices(|calls|);
      var w := 0;
      var aborted := false;
      while pending != {} && !aborted
        invariant 0 <= w <= |waits| + 1
        invariant pending <= Indices(|calls|)
        invariant SlotsFit(env, blocked, slots[..], calls)
        invariant w == |waits| + 1 ==> pending == {}
        invariant forall k :: 0 <= k < |calls| && k !in pending ==> slots[k].Some?
        invariant aborted ==> exists t :: env.aborted(t)
        decreases |waits| + 1 - w
      {
        var done := if w < |waits| then pending * waits[w] else pending;
        Collect(calls, slots, done);
        pending := pending - done;
        w := w + 1;
        if pending != {} {
          aborted := PollAbort();
          if aborted {
            var late := if w < |waits| then pending * waits[w] else {};
            Collect(calls, slots, late);
          }
        }
      }
      results := Gather(calls, slots[..]);
    }

    /** The slots in order; a slot left empty was aborted. */
    method Gather(calls: seq<Block>, slots: seq<Option<Block>>) returns (results: seq<Block>)
      requires (forall b :: b in calls ==> b.ToolUse?) && SlotsFit(env, blocked, slots, calls)
      requires forall k :: 0 <= k < |calls| && slots[k].None? ==> exists t :: env.aborted(t)
      ensures Served(env, blocked, calls, results)
    {
      results := [];
      var i := 0;
      while i < |calls|
        invariant 0 <= i <= |calls|
        invariant Served(env, blocked, calls[..i], results)
      {
        var result := if slots[i].Some? then slots[i].value else ToolResult(calls[i].id, ABORT_NOTICE, true);
        assert FromTool(env, blocked, calls[i], result);
        ServedConcat(env, blocked, calls[..i], results, [calls[i]], [result]);
        assert calls[..i + 1] == calls[..i] + [calls[i]];
        results := results + [result];
        i := i + 1;
      }
      assert calls[..i] == calls;
    }

    /** Exactly one result per call, in emission order. */
    method RunTools(calls: seq<Block>) returns (results: seq<Block>)
      requires forall b :: b in calls ==> b.ToolUse? && !b.marked
      modifies this`clock, this`offered
      ensures Served(env, blocked, calls, results)
      ensures offered == old(offered) + calls
    {
      offered := offered + calls;
      if !parallelTools || |calls| < 2 {
        results := RunSequential(calls);
        return;
      }
      var segments := PlanSegments(env.eligible, calls);
      results := [];
      var i := 0;
      while i < |segments|
        invariant 0 <= i <= |segments|
        invariant Served(env, blocked, CallsOf(segments[..i]), results)
        invariant offered == old(offered) + calls
      {
        var s := segments[i];
        assert segments[..i + 1] == segments[..i] + [s];
        CallsOfSnoc(segments[..i], s);
        SegmentCalls(segments, i);
        var aborted := false;
        if s.concurrent {
          aborted := PollAbort();
        }
        var part: seq<Block>;
        if s.concurrent && !aborted {
          part := RunParallel(s.calls);
        } else {
          part := RunSequential(s.calls);
        }
        ServedConcat(env, blocked, CallsOf(segments[..i]), results, s.calls, part);
        results := results + part;
        i := i + 1;
      }
      assert segments[..i] == segments;
    }

    /** Answers a whole reply: cut-off calls with an error, the others with what they returned. */
    method AnswerReply(content: seq<Block>, stop: StopReason) returns (results: seq<Block>)
      modifies this`clock, this`offered
      ensures AnsweredBy(env, blocked, content, stop, results)
      ensures var calls := Calls(content);
              offered == old(offered) + Kept(calls, CutFlags(content, stop, calls), |calls|)
    {
      var calls := Calls(content);
      var cut := CutFlags(content, stop, calls);
      var kept: seq<Block> := [];
      var k := 0;
      while k < |calls|
        invariant 0 <= k <= |calls|
        invariant kept == Kept(calls, cut, k)
      {
        if !cut[k] {
          kept := kept + [Unmark(calls[k])];
        }
        k := k + 1;
      }
      KeptAreWhole(calls, cut, |calls|);
      var ran := RunTools(kept);
      results := InterleaveAnswers(calls, cut, ran);
    }

    /** Puts the results of the calls that ran back between the refusals of those that did not. */
    method InterleaveAnswers(calls: seq<Block>, cut: seq<bool>, ran: seq<Block>) returns (results: seq<Block>)
      requires |cut| == |calls| && (forall b :: b in calls ==> b.ToolUse?)
      requires Served(env, blocked, Kept(calls, cut, |calls|), ran)
      ensures Answer(results, calls)
      ensures forall k :: 0 <= k < |calls| ==>
        if cut[k] then results[k] == ToolResult(calls[k].id, CUT_OFF_NOTICE, true)
        else FromTool(env, blocked, Unmark(calls[k]), results[k])
    {
      results := [];
      var k, used := 0, 0;
      while k < |calls|
        invariant 0 <= k <= |calls| && used == |Kept(calls, cut, k)|
        invariant Answer(results, calls[..k])
        invariant forall j :: 0 <= j < k ==>
          if cut[j] then results[j] == ToolResult(calls[j].id, CUT_OFF_NOTICE, true)
          else FromTool(env, blocked, Unmark(calls[j]), results[j])
      {
        var result := ToolResult(calls[k].id, CUT_OFF_NOTICE, true);
        if !cut[k] {
          KeptAnswered(env, blocked, calls, cut, k, ran);
          result := ran[used];
          used := used + 1;
        }
        AnswerConcat(results, calls[..k], [result], [calls[k]]);
        assert calls[..k + 1] == calls[..k] + [calls[k]];
        results := results + [result];
        k := k + 1;
      }
      assert calls[..k] == calls;
    }

    // -- the loop ------------------------------------------------------------------------

    /** Delivers what the user typed meanwhile, as user text ahead of the next model call. */
    method DeliverSteer()
      requires Sendable(messages)
      modifies this`messages, this`pendingSteer, this`clock
      ensures Sendable(messages) && (Clean(old(messages)) ==> Clean(messages))
      ensures messages == Steered(old(messages), if trusted then Queued(old(pendingSteer), env.typed(old(clock))) else "")
    {
      if !trusted {
        return;
      }
      var steer := DrainSteer();
      if steer != "" {
        AddUserText(STEER_NOTE + "\n" + steer);
      }
    }

    method AddUserText(text: string)
      requires WellPaired(messages)
      modifies this`messages
      ensures messages == WithUserText(old(messages), text)
      ensures Sendable(messages) && (Clean(old(messages)) ==> Clean(messages))
    {
      UserTextSendable(messages, text);
      if Clean(messages) {
        UserTextClean(messages, text);
      }
      messages := WithUserText(messages, text);
    }

    /** One turn. It is entered and, unless it ends the run, left with a history that can be sent. */
    method Turn(text: string, ghost clean: bool, ghost asked: Block) returns (p: Progress, ghost at: nat, ghost answers: seq<Block>)
      requires Sendable(messages) && (clean ==> Clean(messages)) && SentWell(requests, clean) && AllWhole(offered)
      modifies this
      ensures blocked == old(blocked) && trusted == old(trusted)
      ensures WellPaired(messages) && (p.Continue? ==> Sendable(messages))
      ensures (clean ==> Clean(messages)) && SentWell(requests, clean) && AllWhole(offered)
      ensures !p.Continue? ==> offered == old(offered)
      ensures old(lastStop) != TurnLimit ==> lastStop != TurnLimit
      ensures var steer := if trusted then Queued(old(pendingSteer), env.typed(old(clock) + 1)) else "";
              if env.aborted(old(clock)) then requests == old(requests) && messages == old(messages) && p == Stop(text)
              else Conversed(env, blocked, Steered(old(messages), steer), old(requests), messages, requests, at, text, p, answers)
      ensures AskedFirst(old(messages), old(requests), requests, asked)
    {
      at, answers := 0, [];
      var aborted := PollAbort();
      if aborted {
        Discard();
        lastStop := Aborted;
        p := Stop(text);
      } else {
        p, at, answers := SteerAndConverse(text, clean, asked);
      }
    }

    /** The turn itself: what the user typed meanwhile goes first. */
    method SteerAndConverse(text: string, ghost clean: bool, ghost asked: Block) returns (p: Progress, ghost at: nat, ghost answers: seq<Block>)
      requires Sendable(messages) && (clean ==> Clean(messages)) && SentWell(requests, clean) && AllWhole(offered)
      modifies this`messages, this`compactFloor, this`pendingSteer, this`lastStop, this`clock, this`requests, this`offered
      ensures WellPaired(messages) && (p.Continue? ==> Sendable(messages))
      ensures (clean ==> Clean(messages)) && SentWell(requests, clean) && AllWhole(offered)
      ensures !p.Continue? ==> offered == old(offered)
      ensures old(lastStop) != TurnLimit ==> lastStop != TurnLimit
      ensures var steer := if trusted then Queued(old(pendingSteer), env.typed(old(clock))) else "";
              Conversed(env, blocked, Steered(old(messages), steer), old(requests), messages, requests, at, text, p, answers)
      ensures AskedFirst(old(messages), old(requests), requests, asked)
    {
      ghost var steer := if trusted then Queued(pendingSteer, env.typed(clock)) else "";
      DeliverSteer();
      p, at, answers := Converse(text, clean);
      ConversedAsks(env, blocked, old(messages), steer, old(requests), messages, requests, at, text, p, answers, asked);
    }

    /** Asks the model, and takes in what it said. */
    method Converse(text: string, ghost clean: bool) returns (p: Progress, ghost at: nat, ghost answers: seq<Block>)
      requires Sendable(messages) && (clean ==> Clean(messages)) && SentWell(requests, clean) && AllWhole(offered)
      modifies this`messages, this`compactFloor, this`pendingSteer, this`lastStop, this`clock, this`requests, this`offered
      ensures WellPaired(messages) && (p.Continue? ==> Sendable(messages))
      ensures (clean ==> Clean(messages)) && SentWell(requests, clean) && AllWhole(offered)
      ensures !p.Continue? ==> offered == old(offered)
      ensures old(lastStop) != TurnLimit ==> lastStop != TurnLimit
      ensures Conversed(env, blocked, old(messages), old(requests), messages, requests, at, text, p, answers)
    {
      ghost var before, asked := messages, requests;
      var reply;
      reply, at := Consult(clean);
      ghost var sent := messages;
      p, answers := TakeReply(reply, at, text);
      Converses(env, blocked, before, asked, messages, requests, at, text, p, answers, sent);
    }

    /** What the model answered to the last request, taken in. */
    method TakeReply(reply: Reply, ghost at: nat, text: string) returns (p: Progress, ghost answers: seq<Block>)
      requires WellPaired(messages) && AllWhole(offered) && reply == env.reply(at)
      modifies this`messages, this`pendingSteer, this`lastStop, this`clock, this`offered
      ensures WellPaired(messages) && (p.Continue? ==> Sendable(messages))
      ensures (Clean(old(messages)) ==> Clean(messages)) && AllWhole(offered)
      ensures !p.Continue? ==> offered == old(offered)
      ensures old(lastStop) != TurnLimit ==> lastStop != TurnLimit
      ensures Taken(env, blocked, old(messages), messages, at, text, p, answers)
    {
      if reply.Raised? {
        p, answers := Failed, [];
        RaisedTaken(env, blocked, messages, at, text);
      } else {
        p, answers := TakeSaid(reply.content, reply.stop, at, text);
      }
    }

    method TakeSaid(content: seq<ReplyBlock>, stop: StopReason, ghost at: nat, text: string)
      returns (p: Progress, ghost answers: seq<Block>)
      requires WellPaired(messages) && AllWhole(offered) && env.reply(at) == Said(content, stop)
      modifies this`messages, this`pendingSteer, this`lastStop, this`clock, this`offered
      ensures WellPaired(messages) && (p.Continue? ==> Sendable(messages))
      ensures (Clean(old(messages)) ==> Clean(messages)) && AllWhole(offered)
      ensures !p.Continue? ==> offered == old(offered)
      ensures old(lastStop) != TurnLimit ==> lastStop != TurnLimit
      ensures Taken(env, blocked, old(messages), messages, at, text, p, answers)
    {
      p, answers := Digest(content, stop, text);
      SaidTaken(env, blocked, old(messages), messages, at, text, p, answers);
    }

    /** Takes a reply into the history and deals with its calls. An abort that lands while the model speaks
        still answers every call, and runs none. */
    method Digest(content: seq<ReplyBlock>, stop: StopReason, text: string) returns (p: Progress, ghost answers: seq<Block>)
      requires WellPaired(messages) && AllWhole(offered)
      modifies this`messages, this`pendingSteer, this`lastStop, this`clock, this`offered
      ensures WellPaired(messages) && (p.Continue? ==> Sendable(messages)) && !p.Failed?
      ensures (Clean(old(messages)) ==> Clean(messages)) && AllWhole(offered)
      ensures !p.Continue? ==> offered == old(offered)
      ensures old(lastStop) != TurnLimit ==> lastStop != TurnLimit
      ensures p.Continue? <==> stop != Interrupted && Calls(content) != [] && !env.aborted(old(clock))
      ensures p == Stop(Latest(content, text)) || p == Continue(Latest(content, text))
      ensures TakenIn(env, blocked, old(messages), content, stop, messages, p.Continue?, answers)
    {
      var aborted := PollAbort();
      if aborted || stop == Interrupted || Calls(content) == [] {
        Conclude(content, stop, aborted || stop == Interrupted);
        p, answers := Stop(Latest(content, text)), [];
      } else {
        answers := ExecuteReply(content, stop);
        p := Continue(Latest(content, text));
      }
    }

    /** The last reply of a run: nothing of it is executed. */
    method Conclude(content: seq<ReplyBlock>, stop: StopReason, aborted: bool)
      requires WellPaired(messages)
      modifies this`messages, this`pendingSteer, this`lastStop, this`clock
      ensures WellPaired(messages) && (Clean(old(messages)) ==> Clean(messages))
      ensures lastStop == if aborted then Aborted else if stop == MaxTokens then TokenLimit else old(lastStop)
      ensures TakenIn(env, blocked, old(messages), content, stop, messages, false, [])
    {
      StoredIds(content);
      Close(content, Stored(content), ABORT_NOTICE);
      if aborted {
        Discard();
        lastStop := Aborted;
      } else if stop == MaxTokens {
        lastStop := TokenLimit;
      }
    }

    /** Stores a reply and refuses its calls, if it has any. */
    method Close(content: seq<ReplyBlock>, stored: seq<Block>, reason: string)
      requires WellPaired(messages) && (stored == content || stored == Stored(content))
      modifies this`messages
      ensures WellPaired(messages)
      ensures messages == Refused(old(messages), content, stored, reason)
      ensures Clean(old(messages)) ==> (Clean(messages) <==> Unmarked(stored))
    {
      var before := messages;
      var calls := Calls(content);
      var said := Message(Assistant, Blocks(stored));
      if calls == [] {
        SaidPaired(before, content, stored);
        messages := before + [said];
      } else {
        var answer := Message(User, Blocks(Refusals(calls, reason)));
        AnsweredSendable(before, content, stored, Refusals(calls, reason));
        AnswerIds(Refusals(calls, reason), calls);
        messages := before + [said] + [answer];
      }
      LastTurnMarks(before, stored, messages);
    }

    /** Stores a reply, runs its calls and stores their results. */
    method ExecuteReply(content: seq<ReplyBlock>, stop: StopReason) returns (ghost answers: seq<Block>)
      requires WellPaired(messages) && Calls(content) != [] && AllWhole(offered)
      modifies this`messages, this`clock, this`offered
      ensures Sendable(messages) && (Clean(old(messages)) ==> Clean(messages)) && AllWhole(offered)
      ensures TakenIn(env, blocked, old(messages), content, stop, messages, true, answers)
    {
      var before := messages;
      var calls := Calls(content);
      var results := AnswerReply(content, stop);
      StoredIds(content);
      AnsweredSendable(before, content, Stored(content), results);
      AnswerIds(results, calls);
      KeptAreWhole(calls, CutFlags(content, stop, calls), |calls|);
      answers := results;
      messages := before + [Message(Assistant, Blocks(Stored(content)))] + [Message(User, Blocks(results))];
      LastTurnMarks(before, Stored(content), messages);
    }

    /** An aborted turn drops what was queued for it. */
    method Discard()
      modifies this`pendingSteer, this`clock
    {
      if trusted {
        var dropped := DrainSteer();
      }
    }

    /** One last call without tools. If it is skipped or fails, the history is exactly as before; if it returns,
        stray calls are answered. It alone stores a reply as it came: the history it leaves is unmarked exactly
        when the reply was. */
    method GraceSummary(ghost clean: bool) returns (text: string, ghost reply: Option<seq<Block>>)
      requires Sendable(messages) && (clean ==> Clean(messages)) && SentWell(requests, clean)
      modifies this`messages, this`compactFloor, this`clock, this`requests
      ensures WellPaired(messages) && SentWell(requests, clean)
      ensures SpokenLast(old(messages), old(requests), messages, requests, reply, text)
      ensures clean ==> (Clean(messages) <==> reply.None? || Unmarked(reply.value))
      ensures HasReplied(env, reply)
    {
      ghost var before, asked := messages, requests;
      text, reply := "", None;
      var aborted := PollAbort();
      if aborted {
        SpokeNothing(before, asked, messages, requests);
        return;
      }
      var restore := messages;
      var r, at := AskForSummary(clean);
      if r.Raised? {
        messages := restore;
        SpokeNothing(before, asked, messages, requests);
        return;
      }
      text, reply := TextOf(r.content), Some(r.content);
      KeepSummary(r.content, before, asked);
    }

    /** The last reply is stored as it came; no call of it is run. */
    method KeepSummary(content: seq<ReplyBlock>, ghost before: seq<Message>, ghost asked: seq<seq<Message>>)
      requires WellPaired(messages)
      requires asked < requests && requests[|requests| - 1] == messages
      requires AskedAbout(requests, |asked|, Last(WithUserText(before, GRACE_PROMPT)))
      modifies this`messages
      ensures WellPaired(messages) && (Clean(old(messages)) ==> (Clean(messages) <==> Unmarked(content)))
      ensures SpokenLast(before, asked, messages, requests, Some(content), TextOf(content))
    {
      ghost var sent := messages;
      Close(content, content, GRACE_NOTICE);
      Spoke(before, asked, messages, requests, content, sent);
    }

    /** The last call itself, behind a prompt that says it is the last. */
    method AskForSummary(ghost clean: bool) returns (r: Reply, ghost at: nat)
      requires Sendable(messages) && (clean ==> Clean(messages)) && SentWell(requests, clean)
      modifies this`messages, this`compactFloor, this`clock, this`requests
      ensures Sendable(messages) && (clean ==> Clean(messages)) && SentWell(requests, clean)
      ensures AskedAbout(requests, |old(requests)|, Last(WithUserText(old(messages), GRACE_PROMPT)))
      ensures old(requests) < requests && requests[|requests| - 1] == messages && r == env.reply(at)
    {
      AddUserText(GRACE_PROMPT);
      r, at := Consult(clean);
    }

    /** Runs turns until the model stops calling tools, the user aborts, the model fails or the turns run out. */
    method Loop(ghost clean: bool, ghost asked: Block) returns (r: Option<string>, ghost last: Option<seq<Block>>)
      requires Healthy(this, clean) && Sendable(messages) && (clean ==> Clean(messages))
      modifies this
      ensures blocked == old(blocked) && trusted == old(trusted)
      ensures Healthy(this, clean)
      ensures LastWord(this, clean, last)
      ensures AskedFirst(old(messages), old(requests), requests, asked)
    {
      ghost var start, sent := messages, requests;
      var text := "";
      lastStop, last := Normal, None;
      var turn := 0;
      while turn < maxTurns
        invariant 0 <= turn <= maxTurns
        invariant blocked == old(blocked) && trusted == old(trusted) && lastStop != TurnLimit
        invariant Sendable(messages) && (clean ==> Clean(messages)) && SentWell(requests, clean) && AllWhole(offered)
        invariant turn == 0 ==> messages == start && requests == sent
        invariant turn > 0 ==> sent < requests && AskedFirst(start, sent, requests, asked)
      {
        ghost var before, asks := messages, requests;
        var p, _, _ := Turn(text, clean, asked);
        AsksOn(start, sent, before, asks, requests, asked);
        match p {
          case Stop(final) => return Some(final), None;
          case Failed => return None, None;
          case Continue(latest) => text := latest;
        }
        turn := turn + 1;
      }
      ghost var before, asks := messages, requests;
      var summary, reply := GraceSummary(clean);
      AboutAsks(before, WithUserText(before, GRACE_PROMPT), asks, requests, asked);
      AsksOn(start, sent, before, asks, requests, asked);
      lastStop := TurnLimit;
      return Some(if summary != "" then summary else text), reply;
    }

    /** A request always opens a user turn of its own. */
    method OpenRequest(text: string)
      requires WellPaired(messages)
      modifies this`messages
      ensures messages == old(messages) + [Message(User, Blocks([Text(text)]))]
      ensures Sendable(messages) && (Clean(old(messages)) ==> Clean(messages))
    {
      var m := Message(User, Blocks([Text(text)]));
      TextIds(text);
      AlignedAppend(messages, m);
      assert Unmarked(BlocksOf(m));
      messages := messages + [m];
    }

    /** Appends the request, with what the user typed before it. */
    method TakeRequest(userText: string, trustedTurn: bool, ghost clean: bool) returns (ghost asked: string)
      requires Healthy(this, clean) && (clean ==> Clean(messages))
      modifies this`messages, this`pendingSteer, this`clock
      ensures Healthy(this, clean) && Sendable(messages) && (clean ==> Clean(messages))
      ensures asked == Asked(userText, if trustedTurn then Queued(old(pendingSteer), env.typed(old(clock))) else "")
      ensures messages == old(messages) + [Message(User, Blocks([Text(asked)]))]
    {
      var carried := "";
      if trustedTurn {
        carried := DrainSteer();
      }
      asked := Asked(userText, carried);
      OpenRequest(if carried == "" then userText else userText + CARRIED_NOTE + carried);
    }

    /** A user request, from a well paired history to a well paired history: through aborts, cut-off calls,
        concurrent tools, steers, model failures and compaction, everything sent in between was acceptable. */
    method Run(userText: string, blockedTools: set<string>, trustedTurn: bool, ghost clean: bool)
      returns (r: Option<string>, ghost last: Option<seq<Block>>)
      requires Healthy(this, clean) && (clean ==> Clean(messages))
      modifies this
      ensures Healthy(this, clean)
      ensures LastWord(this, clean, last)
      ensures blocked == old(blocked) && trusted == old(trusted)
      ensures var asked := Asked(userText, if trustedTurn then Queued(old(pendingSteer), env.typed(old(clock))) else "");
              old(requests) <= requests && FirstTells(requests, |old(requests)|, Text(asked))
    {
      ghost var asked := TakeRequest(userText, trustedTurn, clean);
      var previousBlocked, previousTrusted := blocked, trusted;
      blocked, trusted := blockedTools, trustedTurn;
      r, last := Loop(clean, Text(asked));
      blocked, trusted := previousBlocked, previousTrusted;
    }
  }

  /** Such a mark does get into the history: an agent without turns left, and a model whose last reply is cut off in a call. */
  method MarkStays(text: string) returns (a: Agent, r: Option<string>)
    ensures fresh(a) && WellPaired(a.messages) && !Clean(a.messages)
  {
    var call := ToolUse(Some("1"), "shell", "", true);
    var env := Environment(_ => Said([call], MaxTokens), _ => None, _ => false, _ => "", _ => Ran("", false), _ => false,
                           _ => [], _ => false, _ => 0);
    a := new Agent(env, 0, false, false, 0);
    ghost var last;
    r, last := a.Run(text, {}, false, true);
    assert call in [call];
  }

  /** How a turn leaves the loop. */
  datatype Progress = Continue(text: string) | Stop(text: string) | Failed

  function TextOf(blocks: seq<Block>): string {
    if blocks == [] then "" else (if blocks[0].Text? then blocks[0].text else "") + TextOf(blocks[1..])
  }

  lemma LastTurnMarks(before: seq<Message>, content: seq<Block>, after: seq<Message>)
    requires before + [Message(Assistant, Blocks(content))] <= after && |after| <= |before| + 2
    requires |after| == |before| + 2 ==> Unmarked(BlocksOf(after[|before| + 1]))
    ensures Clean(before) ==> (Clean(after) <==> Unmarked(content))
  {
    assert after[|before|] == Message(Assistant, Blocks(content));
    if Clean(before) && Unmarked(content) {
      forall i | 0 <= i < |after| ensures Unmarked(BlocksOf(after[i])) {
        if i < |before| {
          assert after[i] == before[i];
        }
      }
    }
  }

  lemma KeptAnswered(env: Environment, blocked: set<string>, calls: seq<Block>, cut: seq<bool>, k: nat, ran: seq<Block>)
    requires k < |calls| == |cut| && !cut[k] && calls[k].ToolUse?
    requires Served(env, blocked, Kept(calls, cut, |calls|), ran)
    ensures var used := |Kept(calls, cut, k)|;
            used < |ran| && ran[used].ToolResult? && ran[used].answers == calls[k].id && FromTool(env, blocked, Unmark(calls[k]), ran[used])
  {
    var used := |Kept(calls, cut, k)|;
    KeptPrefix(calls, cut, k + 1);
    assert Kept(calls, cut, k + 1)[used] == Unmark(calls[k]);
    assert Kept(calls, cut, |calls|)[used] == Unmark(calls[k]);
  }

  function Indices(n: nat): (r: set<nat>)
    ensures forall i: nat :: i in r <==> i < n
  {
    if n == 0 then {} else Indices(n - 1) + {n - 1}
  }

  ghost predicate SlotsFit(env: Environment, blocked: set<string>, slots: seq<Option<Block>>, calls: seq<Block>) {
    && |slots| == |calls|
    && forall i :: 0 <= i < |calls| && slots[i].Some? ==>
         && calls[i].ToolUse? && slots[i].value.ToolResult? && slots[i].value.answers == calls[i].id
         && FromTool(env, blocked, calls[i], slots[i].value)
  }

  lemma {:induction false} SegmentCalls(segments: seq<Segment>, i: nat)
    requires i < |segments|
    ensures forall b :: b in segments[i].calls ==> b in CallsOf(segments)
  {
    var n := |segments| - 1;
    if i < n {
      SegmentCalls(segments[..n], i);
    }
  }
}

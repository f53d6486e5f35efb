/** Compacting a conversation: a protected head, one summary, a verbatim tail. */
module Compaction {
  import opened Outcomes
  import opened Sequences
  import opened Transcript

  /** The fixed texts around a summary; the first is abridged to the mark it begins with. */
  const SUMMARY_PREFIX := "[birkin: compacted history"
  const SUMMARY_END := "\n\n[end of compacted history]"

  predicate HasUse(m: Message) {
    exists b :: b in BlocksOf(m) && b.ToolUse?
  }

  predicate HasResult(m: Message) {
    exists b :: b in BlocksOf(m) && b.ToolResult?
  }

  lemma {:induction false} HasIds(blocks: seq<Block>)
    ensures UseIds(blocks) != [] <==> exists b :: b in blocks && b.ToolUse?
    ensures ResultIds(blocks) != [] <==> exists b :: b in blocks && b.ToolResult?
  {
    if blocks != [] {
      HasIds(blocks[1..]);
      assert forall b :: b in blocks <==> b == blocks[0] || b in blocks[1..];
    }
  }

  // -- where to cut --------------------------------------------------------------------

  /** Shrinks the head so that it never ends on an unanswered call. */
  method SafeHeadEnd(ms: seq<Message>, keepHead: int) returns (end: nat)
    ensures end <= |ms| && (keepHead <= 0 ==> end == 0) && (keepHead > 0 ==> end <= keepHead)
    ensures end > 0 ==> !HasUse(ms[end - 1])
    ensures forall i :: end <= i < |ms| && i < keepHead ==> HasUse(ms[i])
  {
    end := if keepHead <= 0 then 0 else if keepHead <= |ms| then keepHead else |ms|;
    while end > 0 && HasUse(ms[end - 1])
      invariant end <= |ms| && (keepHead <= 0 ==> end == 0) && (keepHead > 0 ==> end <= keepHead)
      invariant forall i :: end <= i < |ms| && i < keepHead ==> HasUse(ms[i])
    {
      end := end - 1;
    }
  }

  /** Advances the tail past results whose calls are summarized away. */
  method SafeTailStart(ms: seq<Message>, start: nat) returns (idx: nat)
    requires start <= |ms|
    ensures start <= idx <= |ms|
    ensures idx < |ms| ==> !HasResult(ms[idx])
    ensures forall i :: start <= i < idx ==> HasResult(ms[i])
  {
    idx := start;
    while idx < |ms| && HasResult(ms[idx])
      invariant start <= idx <= |ms|
      invariant forall i :: start <= i < idx ==> HasResult(ms[i])
    {
      idx := idx + 1;
    }
  }

  function Cost(cost: Message -> nat, ms: seq<Message>): nat {
    if ms == [] then 0 else cost(ms[0]) + Cost(cost, ms[1..])
  }

  /** The tail reaches back as far as the budget allows, but at least `minTail` messages. */
  method FindTailStart(cost: Message -> nat, ms: seq<Message>, headEnd: nat, budget: int, minTail: nat)
    returns (idx: nat)
    requires headEnd <= |ms|
    ensures headEnd <= idx <= |ms|
    ensures |ms| - idx <= minTail || Cost(cost, ms[idx..]) <= budget
    ensures idx > headEnd ==> |ms| - idx >= minTail && Cost(cost, ms[idx - 1..]) > budget
  {
    var total := 0;
    idx := |ms|;
    while idx > headEnd
      invariant headEnd <= idx <= |ms|
      invariant total == Cost(cost, ms[idx..])
      invariant |ms| - idx <= minTail || total <= budget
    {
      var c := cost(ms[idx - 1]);
      assert ms[idx - 1..][1..] == ms[idx..];
      if total + c > budget && |ms| - idx >= minTail {
        break;
      }
      total := total + c;
      idx := idx - 1;
    }
  }

  // -- merging neighbours -------------------------------------------------------------

  predicate Mergeable(a: Message, b: Message) {
    a.role == b.role && a.content.Blocks? && b.content.Blocks?
  }

  function Fused(a: Message, b: Message): Message
    requires Mergeable(a, b)
  {
    Message(a.role, Blocks(a.content.blocks + b.content.blocks))
  }

  function Joined(out: seq<Message>, m: Message): seq<Message> {
    if out != [] && Mergeable(out[|out| - 1], m)
    then out[..|out| - 1] + [Fused(out[|out| - 1], m)]
    else out + [m]
  }

  /** Combines neighbours of one role. */
  function Merged(ms: seq<Message>): seq<Message> {
    if ms == [] then [] else Joined(Merged(ms[..|ms| - 1]), ms[|ms| - 1])
  }

  method MergeSameRole(ms: seq<Message>) returns (out: seq<Message>)
    ensures out == Merged(ms)
  {
    out := [];
    var i := 0;
    while i < |ms|
      invariant 0 <= i <= |ms|
      invariant out == Merged(ms[..i])
    {
      assert ms[..i + 1][..i] == ms[..i];
      var m := ms[i];
      if out != [] && Mergeable(out[|out| - 1], m) {
        out := out[..|out| - 1] + [Fused(out[|out| - 1], m)];
      } else {
        out := out + [m];
      }
      i := i + 1;
    }
    assert ms[..i] == ms;
  }

  /** A conversation as a stream of authored items, blind to how they are grouped into messages. */
  datatype Item = Item(role: Role, piece: Piece)
  datatype Piece = Of(block: Block) | Whole(text: string)

  function ItemsOf(m: Message): seq<Item> {
    if m.content.Plain? then [Item(m.role, Whole(m.content.text))]
    else seq(|m.content.blocks|, i requires 0 <= i < |m.content.blocks| => Item(m.role, Of(m.content.blocks[i])))
  }

  function Stream(ms: seq<Message>): seq<Item> {
    if ms == [] then [] else Stream(ms[..|ms| - 1]) + ItemsOf(ms[|ms| - 1])
  }

  lemma {:induction false} StreamConcat(a: seq<Message>, b: seq<Message>)
    ensures Stream(a + b) == Stream(a) + Stream(b)
    decreases |b|
  {
    if b == [] {
      assert a + b == a;
    } else {
      var n := |b| - 1;
      assert (a + b)[..|a + b| - 1] == a + b[..n] && (a + b)[|a + b| - 1] == b[n];
      StreamConcat(a, b[..n]);
      Assoc(Stream(a), Stream(b[..n]), ItemsOf(b[n]));
    }
  }

  /** Merging loses, adds and reorders nothing. */
  lemma {:induction false} MergeKeepsStream(ms: seq<Message>)
    ensures Stream(Merged(ms)) == Stream(ms)
  {
    if ms != [] {
      MergeKeepsStream(ms[..|ms| - 1]);
      JoinKeepsStream(Merged(ms[..|ms| - 1]), ms[|ms| - 1]);
    }
  }

  lemma JoinKeepsStream(out: seq<Message>, m: Message)
    ensures Stream(Joined(out, m)) == Stream(out) + ItemsOf(m)
  {
    if out != [] && Mergeable(out[|out| - 1], m) {
      var front, fused := out[..|out| - 1], Fused(out[|out| - 1], m);
      assert ItemsOf(fused) == ItemsOf(out[|out| - 1]) + ItemsOf(m);
      assert (front + [fused])[..|front|] == front;
      Assoc(Stream(front), ItemsOf(out[|out| - 1]), ItemsOf(m));
    } else {
      assert (out + [m])[..|out|] == out;
    }
  }

  /** Merging never lengthens, and no two neighbours are left that could still be merged. */
  lemma {:induction false} MergeAlternates(ms: seq<Message>)
    ensures |Merged(ms)| <= |ms| && (ms != [] ==> Merged(ms) != [])
    ensures Alternates(Merged(ms))
  {
    if ms != [] {
      MergeAlternates(ms[..|ms| - 1]);
      JoinAlternates(Merged(ms[..|ms| - 1]), ms[|ms| - 1]);
    }
  }

  ghost predicate Alternates(ms: seq<Message>) {
    forall i | 0 < i < |ms| :: !Mergeable(ms[i - 1], ms[i])
  }

  lemma JoinAlternates(out: seq<Message>, m: Message)
    requires Alternates(out)
    ensures Alternates(Joined(out, m)) && 0 < |Joined(out, m)| <= |out| + 1
  {
    var n := |out| - 1;
    assert out != [] && n > 0 ==> !Mergeable(out[n - 1], out[n]);
  }

  /** Merging two neighbours of one role keeps the pairing: only the assistant calls, only the user answers. */
  lemma FuseKeepsPairing(front: seq<Message>, a: Message, b: Message)
    requires Aligned(front) && InRole(ShapeOf(a)) && InRole(ShapeOf(b)) && Mergeable(a, b)
    requires Results(a) == Pending(front) && Results(b) == Uses(a)
    ensures Aligned(front + [Fused(a, b)]) && Uses(Fused(a, b)) == Uses(b)
  {
    UseIdsConcat(a.content.blocks, b.content.blocks);
    ResultIdsConcat(a.content.blocks, b.content.blocks);
    AlignedAppend(front, Fused(a, b));
  }

  lemma {:induction false} MergeKeepsPairing(ms: seq<Message>)
    requires Aligned(ms)
    ensures Aligned(Merged(ms)) && Pending(Merged(ms)) == Pending(ms)
    ensures ms != [] ==> Merged(ms) != [] && Merged(ms)[|Merged(ms)| - 1].role == ms[|ms| - 1].role
  {
    if ms != [] {
      var n := |ms| - 1;
      var out, m := Merged(ms[..n]), ms[n];
      AlignedLast(ms);
      MergeKeepsPairing(ms[..n]);
      if out != [] && Mergeable(out[|out| - 1], m) {
        AlignedLast(out);
        FuseKeepsPairing(out[..|out| - 1], out[|out| - 1], m);
      } else {
        AlignedAppend(out, m);
      }
    }
  }

  lemma JoinKeepsClean(out: seq<Message>, m: Message)
    requires Clean(out) && Unmarked(BlocksOf(m))
    ensures Clean(Joined(out, m))
  {
    if out != [] && Mergeable(out[|out| - 1], m) {
      var last := out[|out| - 1];
      assert Unmarked(BlocksOf(last));
      assert Unmarked(BlocksOf(Fused(last, m)));
    }
  }

  lemma {:induction false} MergeKeepsClean(ms: seq<Message>)
    requires Clean(ms)
    ensures Clean(Merged(ms))
  {
    if ms != [] {
      var n := |ms| - 1;
      assert Unmarked(BlocksOf(ms[n]));
      assert Clean(ms[..n]) by {
        forall i | 0 <= i < n ensures Unmarked(BlocksOf(ms[..n][i])) {
          assert Unmarked(BlocksOf(ms[i]));
        }
      }
      MergeKeepsClean(ms[..n]);
      JoinKeepsClean(Merged(ms[..n]), ms[n]);
    }
  }

  // -- the compaction itself ---------------------------------------------------------

  function Note(summary: string): Message {
    Message(User, Blocks([Text(SUMMARY_PREFIX + summary + SUMMARY_END)]))
  }

  function Rebuilt(ms: seq<Message>, headEnd: nat, tailStart: nat, summary: string): seq<Message>
    requires headEnd <= tailStart <= |ms|
  {
    Merged(ms[..headEnd] + [Note(summary)] + ms[tailStart..])
  }

  /** Either nothing happened, or the middle became one summary. */
  datatype Compacted = Unchanged | Replaced(messages: seq<Message>, headEnd: nat, tailStart: nat)

  /** The cuts fall between messages, on a head that asks nothing and a tail that answers nothing. */
  lemma CutsArePaired(ms: seq<Message>, headEnd: nat, tailStart: nat, note: Message)
    requires WellPaired(ms) && headEnd <= tailStart < |ms|
    requires headEnd > 0 ==> !HasUse(ms[headEnd - 1])
    requires !HasResult(ms[tailStart])
    requires Uses(note) == [] && Results(note) == []
    ensures WellPaired(ms[..headEnd] + [note] + ms[tailStart..])
  {
    var head, tail := ms[..headEnd], ms[tailStart..];
    AlignedPrefix(ms, headEnd);
    if headEnd > 0 {
      HasIds(BlocksOf(ms[headEnd - 1]));
    }
    HasIds(BlocksOf(ms[tailStart]));
    AlignedSuffix(ms, tailStart);
    AlignedAppend(head, note);
    AlignedConcat(head + [note], tail);
  }

  lemma RebuiltPaired(ms: seq<Message>, headEnd: nat, tailStart: nat, summary: string)
    requires WellPaired(ms) && headEnd <= tailStart < |ms|
    requires headEnd > 0 ==> !HasUse(ms[headEnd - 1])
    requires !HasResult(ms[tailStart])
    ensures var out := Rebuilt(ms, headEnd, tailStart, summary);
            && WellPaired(out)
            && out != [] && EndsWith(out[|out| - 1], ms[|ms| - 1])
            && |out| <= headEnd + 1 + (|ms| - tailStart)
            && Stream(out) == Stream(ms[..headEnd]) + [SummaryItem(summary)] + Stream(ms[tailStart..])
  {
    var parts := ms[..headEnd] + [Note(summary)] + ms[tailStart..];
    NotedPaired(ms, headEnd, tailStart, summary);
    RebuiltStream(ms, headEnd, tailStart, summary);
    MergedEnds(parts);
    assert parts[|parts| - 1] == ms[|ms| - 1];
  }

  lemma NotedPaired(ms: seq<Message>, headEnd: nat, tailStart: nat, summary: string)
    requires WellPaired(ms) && headEnd <= tailStart < |ms|
    requires headEnd > 0 ==> !HasUse(ms[headEnd - 1])
    requires !HasResult(ms[tailStart])
    ensures var out := Rebuilt(ms, headEnd, tailStart, summary); WellPaired(out) && |out| <= headEnd + 1 + (|ms| - tailStart)
  {
    var note := Note(summary);
    var parts := ms[..headEnd] + [note] + ms[tailStart..];
    TextIds(SUMMARY_PREFIX + summary + SUMMARY_END);
    CutsArePaired(ms, headEnd, tailStart, note);
    MergeKeepsPairing(parts);
    MergeAlternates(parts);
  }

  lemma RebuiltStream(ms: seq<Message>, headEnd: nat, tailStart: nat, summary: string)
    requires headEnd <= tailStart <= |ms|
    ensures Stream(Rebuilt(ms, headEnd, tailStart, summary))
            == Stream(ms[..headEnd]) + [SummaryItem(summary)] + Stream(ms[tailStart..])
  {
    var parts := ms[..headEnd] + [Note(summary)] + ms[tailStart..];
    MergeKeepsStream(parts);
    StreamConcat(ms[..headEnd] + [Note(summary)], ms[tailStart..]);
    StreamConcat(ms[..headEnd], [Note(summary)]);
    assert [Note(summary)][..0] == [];
    assert Stream([Note(summary)]) == ItemsOf(Note(summary)) == [SummaryItem(summary)];
  }

  lemma MergedEnds(ms: seq<Message>)
    requires ms != []
    ensures Merged(ms) != [] && EndsWith(Merged(ms)[|Merged(ms)| - 1], ms[|ms| - 1])
  {
    var out, m := Merged(ms[..|ms| - 1]), ms[|ms| - 1];
    if out != [] && Mergeable(out[|out| - 1], m) {
      assert Fused(out[|out| - 1], m).content.blocks == out[|out| - 1].content.blocks + m.content.blocks;
    }
  }

  /** Text in which the user seems to recall a summary: marked at both ends, and in between word for word. */
  function SummaryItem(summary: string): Item {
    Item(User, Of(Text(SUMMARY_PREFIX + summary + SUMMARY_END)))
  }

  /** `m` says what `n` says, possibly after more of the same party's. */
  ghost predicate EndsWith(m: Message, n: Message) {
    m.role == n.role && (m == n || (m.content.Blocks? && n.content.Blocks? && exists front :: m.content.blocks == front + n.content.blocks))
  }

  lemma EndsWithTrans(a: Message, b: Message, c: Message)
    requires EndsWith(a, b) && EndsWith(b, c)
    ensures EndsWith(a, c)
  {
    if a != b && b != c {
      var x :| a.content.blocks == x + b.content.blocks;
      var y :| b.content.blocks == y + c.content.blocks;
      assert a.content.blocks == (x + y) + c.content.blocks;
    }
  }

  /** In a paired history no two neighbours both carry results. */
  lemma ResultsNeverAdjacent(ms: seq<Message>, i: nat)
    requires WellPaired(ms) && i + 1 < |ms| && HasResult(ms[i])
    ensures !HasResult(ms[i + 1])
  {
    HasIds(BlocksOf(ms[i]));
    HasIds(BlocksOf(ms[i + 1]));
    PairingMeans(ms, i);
    PairingMeans(ms, i + 1);
  }

  lemma RebuiltClean(ms: seq<Message>, headEnd: nat, tailStart: nat, summary: string)
    requires Clean(ms) && headEnd <= tailStart <= |ms|
    ensures Clean(Rebuilt(ms, headEnd, tailStart, summary))
  {
    var parts := ms[..headEnd] + [Note(summary)] + ms[tailStart..];
    forall i | 0 <= i < |parts| ensures Unmarked(BlocksOf(parts[i])) {
      if i < headEnd {
        assert Unmarked(BlocksOf(ms[i]));
      } else if i > headEnd {
        assert Unmarked(BlocksOf(ms[tailStart + i - headEnd - 1]));
      }
    }
    MergeKeepsClean(parts);
  }

  /** The two cuts, described by what they must be rather than how they are found: the longest head within
      `keepHead` that asks nothing, and behind the budgeted tail start the first message that answers nothing. */
  ghost predicate IsCut(cost: Message -> nat, ms: seq<Message>, keepHead: int, budget: int, headEnd: nat, found: nat, tailStart: nat) {
    && headEnd <= found <= tailStart <= |ms|
    && (keepHead <= 0 ==> headEnd == 0) && (keepHead > 0 ==> headEnd <= keepHead)
    && (headEnd > 0 ==> !HasUse(ms[headEnd - 1]))
    && (forall i :: headEnd <= i < |ms| && i < keepHead ==> HasUse(ms[i]))
    && (|ms| - found <= 4 || Cost(cost, ms[found..]) <= budget)
    && (found > headEnd ==> |ms| - found >= 4 && Cost(cost, ms[found - 1..]) > budget)
    && (tailStart < |ms| ==> !HasResult(ms[tailStart]))
    && (forall i :: found <= i < tailStart ==> HasResult(ms[i]))
  }

  /** In a paired history the tail that is kept is never empty. */
  lemma TailIsNotEmpty(cost: Message -> nat, ms: seq<Message>, keepHead: int, budget: int, headEnd: nat, found: nat, tailStart: nat)
    requires WellPaired(ms) && |ms| >= 6 && IsCut(cost, ms, keepHead, budget, headEnd, found, tailStart)
    requires headEnd + 2 <= tailStart
    ensures tailStart < |ms|
  {
    if found == headEnd {
      assert HasResult(ms[found]) && HasResult(ms[found + 1]);
      ResultsNeverAdjacent(ms, found);
    }
    if found + 1 < tailStart {
      assert HasResult(ms[found]) && HasResult(ms[found + 1]);
      ResultsNeverAdjacent(ms, found);
    }
  }

  /** A compacted history stands for the old one: still paired, strictly shorter, the head and a non-empty tail kept word
      for word around the summary, and the last turn kept whole. */
  ghost predicate StandsFor(out: seq<Message>, ms: seq<Message>, headEnd: nat, tailStart: nat, summary: string) {
    && headEnd <= tailStart <= |ms|
    && Stream(out) == Stream(ms[..headEnd]) + [SummaryItem(summary)] + Stream(ms[tailStart..])
    && (WellPaired(ms) ==>
          && WellPaired(out) && |out| < |ms| && headEnd < tailStart < |ms|
          && out != [] && EndsWith(out[|out| - 1], ms[|ms| - 1]))
    && (Clean(ms) ==> Clean(out))
  }

  lemma CompactedIsFit(cost: Message -> nat, ms: seq<Message>, keepHead: int, budget: int, headEnd: nat, found: nat, tailStart: nat,
                       summary: string)
    requires |ms| >= 6 && IsCut(cost, ms, keepHead, budget, headEnd, found, tailStart) && headEnd + 2 <= tailStart
    ensures StandsFor(Rebuilt(ms, headEnd, tailStart, summary), ms, headEnd, tailStart, summary)
  {
    RebuiltStream(ms, headEnd, tailStart, summary);
    if WellPaired(ms) {
      TailIsNotEmpty(cost, ms, keepHead, budget, headEnd, found, tailStart);
      RebuiltPaired(ms, headEnd, tailStart, summary);
    }
    if Clean(ms) {
      RebuiltClean(ms, headEnd, tailStart, summary);
    }
  }

  ghost predicate Compacts(out: seq<Message>, ms: seq<Message>) {
    exists headEnd, tailStart, summary :: StandsFor(out, ms, headEnd, tailStart, summary)
  }

  lemma CompactsFit(out: seq<Message>, ms: seq<Message>)
    requires Compacts(out, ms)
    ensures WellPaired(ms) ==> WellPaired(out) && |out| < |ms| && out != [] && EndsWith(out[|out| - 1], ms[|ms| - 1])
    ensures Clean(ms) ==> Clean(out)
  {
  }

  /** Each history of `hs` comes from the one before it by a compaction. */
  ghost predicate Chain(hs: seq<seq<Message>>) {
    hs != [] && forall i {:trigger Linked(hs, i)} | 0 < i < |hs| :: Linked(hs, i)
  }

  ghost predicate Linked(hs: seq<seq<Message>>, i: nat)
    requires 0 < i < |hs|
  {
    Compacts(hs[i], hs[i - 1])
  }

  /** `out` comes from `ms` by `n` compactions. */
  ghost predicate Descends(ms: seq<Message>, out: seq<Message>, n: nat) {
    exists hs :: |hs| == n + 1 && hs[0] == ms && hs[n] == out && Chain(hs)
  }

  lemma DescendsNone(ms: seq<Message>)
    ensures Descends(ms, ms, 0)
  {
    assert Chain([ms]) && [ms][0] == ms;
  }

  lemma DescendsOnce(ms: seq<Message>, out: seq<Message>)
    requires Compacts(out, ms)
    ensures Descends(ms, out, 1)
  {
    var hs := [ms, out];
    assert hs[0] == ms && hs[1] == out;
    assert Linked(hs, 1);
  }

  lemma OneLink(ms: seq<Message>, out: seq<Message>)
    requires Descends(ms, out, 1)
    ensures Compacts(out, ms)
  {
    var hs :| |hs| == 2 && hs[0] == ms && hs[1] == out && Chain(hs);
    assert Linked(hs, 1);
  }

  lemma NoLink(ms: seq<Message>, out: seq<Message>)
    requires Descends(ms, out, 0)
    ensures ms == out
  {
  }

  lemma ChainDescends(hs: seq<seq<Message>>, ms: seq<Message>, out: seq<Message>)
    requires Chain(hs) && hs[0] == ms && hs[|hs| - 1] == out
    ensures Descends(ms, out, |hs| - 1)
  {
  }

  lemma DescendsMore(ms: seq<Message>, mid: seq<Message>, out: seq<Message>, n: nat)
    requires Descends(ms, mid, n) && Descends(mid, out, 1)
    ensures Descends(ms, out, n + 1)
  {
    var hs :| |hs| == n + 1 && hs[0] == ms && hs[n] == mid && Chain(hs);
    OneLink(mid, out);
    ChainMore(hs, out);
    ChainDescends(hs + [out], ms, out);
  }

  lemma DescendsBefore(ms: seq<Message>, mid: seq<Message>, out: seq<Message>, n: nat)
    requires Descends(ms, mid, 1) && Descends(mid, out, n)
    ensures Descends(ms, out, n + 1)
  {
    var hs :| |hs| == n + 1 && hs[0] == mid && hs[n] == out && Chain(hs);
    OneLink(ms, mid);
    ChainBefore(ms, hs);
    ChainDescends([ms] + hs, ms, out);
  }

  /** A compaction, or none, in front of others. */
  lemma DescendsAfter(ms: seq<Message>, mid: seq<Message>, out: seq<Message>, first: nat, n: nat)
    requires first <= 1 && Descends(ms, mid, first) && Descends(mid, out, n)
    ensures Descends(ms, out, first + n)
  {
    if first == 0 {
      NoLink(ms, mid);
    } else {
      DescendsBefore(ms, mid, out, n);
    }
  }

  lemma ChainBefore(ms: seq<Message>, hs: seq<seq<Message>>)
    requires Chain(hs) && Compacts(hs[0], ms)
    ensures Chain([ms] + hs)
  {
    var more := [ms] + hs;
    forall i | 0 < i < |more| ensures Linked(more, i) {
      if i > 1 {
        assert Linked(hs, i - 1);
      }
    }
  }

  lemma ChainMore(hs: seq<seq<Message>>, out: seq<Message>)
    requires Chain(hs) && Compacts(out, hs[|hs| - 1])
    ensures Chain(hs + [out])
  {
    var more := hs + [out];
    forall i | 0 < i < |more| ensures Linked(more, i) {
      if i < |hs| {
        assert Linked(hs, i);
      }
    }
  }

  /** `out` is as fit as `ms`, at least `n` messages shorter, and its last turn ends like that of `ms`. */
  ghost predicate FitAfter(ms: seq<Message>, out: seq<Message>, n: nat) {
    && (WellPaired(ms) && ms != [] ==> WellPaired(out) && |out| + n <= |ms| && out != [] && EndsWith(out[|out| - 1], ms[|ms| - 1]))
    && (Clean(ms) ==> Clean(out))
  }

  lemma FitTrans(ms: seq<Message>, mid: seq<Message>, out: seq<Message>, n: nat, k: nat)
    requires FitAfter(ms, mid, n) && FitAfter(mid, out, k)
    ensures FitAfter(ms, out, n + k)
  {
    if WellPaired(ms) && ms != [] {
      EndsWithTrans(out[|out| - 1], mid[|mid| - 1], ms[|ms| - 1]);
    }
  }

  lemma CompactsFitAfter(out: seq<Message>, ms: seq<Message>)
    requires Compacts(out, ms)
    ensures FitAfter(ms, out, 1)
  {
    CompactsFit(out, ms);
  }

  lemma LinkFits(hs: seq<seq<Message>>, k: nat)
    requires Chain(hs) && 0 < k < |hs|
    ensures FitAfter(hs[k - 1], hs[k], 1)
  {
    assert Linked(hs, k);
    CompactsFitAfter(hs[k], hs[k - 1]);
  }

  lemma {:induction false} ChainFit(hs: seq<seq<Message>>, k: nat)
    requires Chain(hs) && k < |hs|
    ensures FitAfter(hs[0], hs[k], k)
  {
    if k > 0 {
      ChainFit(hs, k - 1);
      LinkFits(hs, k);
      FitTrans(hs[0], hs[k - 1], hs[k], k - 1, 1);
    } else {
      FitItself(hs[0]);
    }
  }

  lemma FitItself(ms: seq<Message>)
    ensures FitAfter(ms, ms, 0)
  {
  }

  /** Compactions keep a history fit, and its last turn whole. */
  lemma DescendsFit(ms: seq<Message>, out: seq<Message>, n: nat)
    requires Descends(ms, out, n)
    ensures FitAfter(ms, out, n)
  {
    var hs :| |hs| == n + 1 && hs[0] == ms && hs[n] == out && Chain(hs);
    ChainFit(hs, n);
  }

  // -- there is one cut only -----------------------------------------------------------------

  lemma {:induction false} CostShrinks(cost: Message -> nat, ms: seq<Message>, i: nat, j: nat)
    requires i <= j <= |ms|
    ensures Cost(cost, ms[j..]) <= Cost(cost, ms[i..])
    decreases j - i
  {
    if i < j {
      CostShrinks(cost, ms, i + 1, j);
      assert ms[i..][1..] == ms[i + 1..];
    }
  }

  lemma HeadIsLongest(cost: Message -> nat, ms: seq<Message>, keepHead: int, budget: int, h: nat, f: nat, t: nat, h': nat, f': nat, t': nat)
    requires IsCut(cost, ms, keepHead, budget, h, f, t) && IsCut(cost, ms, keepHead, budget, h', f', t')
    ensures h' <= h
  {
  }

  lemma TailIsLongest(cost: Message -> nat, ms: seq<Message>, keepHead: int, budget: int, h: nat, f: nat, t: nat, f': nat, t': nat)
    requires IsCut(cost, ms, keepHead, budget, h, f, t) && IsCut(cost, ms, keepHead, budget, h, f', t')
    ensures f' <= f
  {
    if f' > f {
      CostShrinks(cost, ms, f, f' - 1);
    }
  }

  lemma TailSkipsLeast(cost: Message -> nat, ms: seq<Message>, keepHead: int, budget: int, h: nat, f: nat, t: nat, t': nat)
    requires IsCut(cost, ms, keepHead, budget, h, f, t) && IsCut(cost, ms, keepHead, budget, h, f, t')
    ensures t' <= t
  {
  }

  /** A history is cut in one way only. */
  lemma CutIsUnique(cost: Message -> nat, ms: seq<Message>, keepHead: int, budget: int, h: nat, f: nat, t: nat, h': nat, f': nat, t': nat)
    requires IsCut(cost, ms, keepHead, budget, h, f, t) && IsCut(cost, ms, keepHead, budget, h', f', t')
    ensures (h, f, t) == (h', f', t')
  {
    HeadIsLongest(cost, ms, keepHead, budget, h, f, t, h', f', t');
    HeadIsLongest(cost, ms, keepHead, budget, h', f', t', h, f, t);
    TailIsLongest(cost, ms, keepHead, budget, h, f, t, f', t');
    TailIsLongest(cost, ms, keepHead, budget, h, f', t', f, t);
    TailSkipsLeast(cost, ms, keepHead, budget, h, f, t, t');
    TailSkipsLeast(cost, ms, keepHead, budget, h, f, t', t);
  }

  /** There is something to compact: a long enough history with a middle of two messages, and a summary of it. */
  ghost predicate Compactable(cost: Message -> nat, ms: seq<Message>, keepHead: int, budget: int, summary: Option<string>) {
    && |ms| >= 6 && summary.Some? && summary.value != ""
    && exists headEnd, found, tailStart :: IsCut(cost, ms, keepHead, budget, headEnd, found, tailStart) && headEnd + 2 <= tailStart
  }

  lemma ShortMiddle(cost: Message -> nat, ms: seq<Message>, keepHead: int, budget: int, h: nat, f: nat, t: nat, summary: Option<string>)
    requires IsCut(cost, ms, keepHead, budget, h, f, t) && (t < h + 2 || summary.None? || summary.value == "")
    ensures !Compactable(cost, ms, keepHead, budget, summary)
  {
    forall h': nat, f': nat, t': nat | IsCut(cost, ms, keepHead, budget, h', f', t') ensures (h', t') == (h, t) {
      CutIsUnique(cost, ms, keepHead, budget, h, f, t, h', f', t');
    }
  }

  /** Compacts a history. `summary` is what the summarizer answered, if it answered. A short history, an empty
      or failed summary, or a middle of fewer than two messages changes nothing. */
  method Compact(cost: Message -> nat, ms: seq<Message>, keepHead: int, budget: int, summary: Option<string>)
    returns (r: Compacted)
    ensures r.Replaced? <==> Compactable(cost, ms, keepHead, budget, summary)
    ensures r.Replaced? ==> exists found :: IsCut(cost, ms, keepHead, budget, r.headEnd, found, r.tailStart)
    ensures r.Replaced? ==> summary.Some? && StandsFor(r.messages, ms, r.headEnd, r.tailStart, summary.value)
  {
    if |ms| < 6 {
      return Unchanged;
    }
    var headEnd := SafeHeadEnd(ms, keepHead);
    var found := FindTailStart(cost, ms, headEnd, budget, 4);
    var tailStart := SafeTailStart(ms, found);
    assert IsCut(cost, ms, keepHead, budget, headEnd, found, tailStart);
    if tailStart < headEnd + 2 || summary.None? || summary.value == "" {
      ShortMiddle(cost, ms, keepHead, budget, headEnd, found, tailStart, summary);
      return Unchanged;
    }
    var out := MergeSameRole(ms[..headEnd] + [Note(summary.value)] + ms[tailStart..]);
    assert out == Rebuilt(ms, headEnd, tailStart, summary.value);
    r := Replaced(out, headEnd, tailStart);
    CompactedIsFit(cost, ms, keepHead, budget, headEnd, found, tailStart, summary.value);
  }
}

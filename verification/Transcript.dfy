/** The conversation an agent sends to its model, and what makes it acceptable there. */
module Transcript {
  import opened Outcomes

  datatype Role = User | Assistant

  /** `marked` is the private sign that a call's arguments were cut off. */
  datatype Block =
    | Text(text: string)
    | ToolUse(id: Option<string>, name: string, input: string, marked: bool)
    | ToolResult(answers: Option<string>, content: string, isError: bool)
    | Opaque(kind: string)

  /** Older histories may hold plain text instead of a block list. */
  datatype Content = Plain(text: string) | Blocks(blocks: seq<Block>)

  datatype Message = Message(role: Role, content: Content)

  function BlocksOf(m: Message): seq<Block> {
    if m.content.Blocks? then m.content.blocks else []
  }

  function UseIds(blocks: seq<Block>): seq<Option<string>> {
    if blocks == [] then []
    else (if blocks[0].ToolUse? then [blocks[0].id] else []) + UseIds(blocks[1..])
  }

  function ResultIds(blocks: seq<Block>): seq<Option<string>> {
    if blocks == [] then []
    else (if blocks[0].ToolResult? then [blocks[0].answers] else []) + ResultIds(blocks[1..])
  }

  function Uses(m: Message): seq<Option<string>> {
    UseIds(BlocksOf(m))
  }

  function Results(m: Message): seq<Option<string>> {
    ResultIds(BlocksOf(m))
  }

  /** All that pairing looks at in a message. */
  datatype Shape = Shape(role: Role, uses: seq<Option<string>>, results: seq<Option<string>>)

  function ShapeOf(m: Message): Shape {
    Shape(m.role, Uses(m), Results(m))
  }

  function Shapes(ms: seq<Message>): seq<Shape> {
    seq(|ms|, i requires 0 <= i < |ms| => ShapeOf(ms[i]))
  }

  /** Tool calls are the assistant's, results the user's. */
  predicate InRole(s: Shape) {
    (s.uses != [] ==> s.role == Assistant) && (s.results != [] ==> s.role == User)
  }

  /** The calls still unanswered after the first `n` messages. */
  function Open(ss: seq<Shape>, n: nat): seq<Option<string>>
    requires n <= |ss|
  {
    if n == 0 then [] else ss[n - 1].uses
  }

  function Pending(ms: seq<Message>): seq<Option<string>> {
    if ms == [] then [] else Uses(ms[|ms| - 1])
  }

  predicate AlignedShapes(ss: seq<Shape>) {
    && (forall i :: 0 <= i < |ss| ==> InRole(ss[i]))
    && (forall i {:trigger Open(ss, i)} :: 0 <= i < |ss| ==> ss[i].results == Open(ss, i))
  }

  /** Every message answers exactly the calls of the one before it, in order, and calls and answers keep to their roles. */
  predicate Aligned(ms: seq<Message>) {
    AlignedShapes(Shapes(ms))
  }

  /** What the provider demands of a history: each message with tool calls is followed at once by one message
      with exactly their results, and there are no other results. */
  predicate WellPaired(ms: seq<Message>) {
    Aligned(ms) && Pending(ms) == []
  }

  /** A history fit to be sent: well paired, and the user's turn is the last. */
  predicate Sendable(ms: seq<Message>) {
    ms != [] && WellPaired(ms) && ms[|ms| - 1].role == User
  }

  /** No private truncation mark is left in the history. */
  predicate Clean(ms: seq<Message>) {
    forall i :: 0 <= i < |ms| ==> Unmarked(BlocksOf(ms[i]))
  }

  predicate Unmarked(blocks: seq<Block>) {
    forall b :: b in blocks && b.ToolUse? ==> !b.marked
  }

  /** Pairing, spelled out for a pair of neighbours. */
  lemma PairingMeans(ms: seq<Message>, i: nat)
    requires WellPaired(ms) && i < |ms|
    ensures Uses(ms[i]) != [] ==> ms[i].role == Assistant && i + 1 < |ms| && ms[i + 1].role == User && Results(ms[i + 1]) == Uses(ms[i])
    ensures Results(ms[i]) != [] ==> ms[i].role == User && i > 0 && ms[i - 1].role == Assistant && Uses(ms[i - 1]) == Results(ms[i])
  {
    var ss := Shapes(ms);
    assert ss[i] == ShapeOf(ms[i]) && ss[i].results == Open(ss, i) && InRole(ss[i]);
    if i + 1 < |ms| {
      assert ss[i + 1] == ShapeOf(ms[i + 1]) && ss[i + 1].results == Open(ss, i + 1) && InRole(ss[i + 1]);
    }
    if i > 0 {
      assert ss[i - 1] == ShapeOf(ms[i - 1]) && InRole(ss[i - 1]);
    }
  }

  lemma {:induction false} UseIdsConcat(a: seq<Block>, b: seq<Block>)
    ensures UseIds(a + b) == UseIds(a) + UseIds(b)
    decreases |a|
  {
    if a == [] {
      assert a + b == b;
    } else {
      UseIdsConcat(a[1..], b);
      assert (a + b)[1..] == a[1..] + b;
    }
  }

  lemma {:induction false} ResultIdsConcat(a: seq<Block>, b: seq<Block>)
    ensures ResultIds(a + b) == ResultIds(a) + ResultIds(b)
    decreases |a|
  {
    if a == [] {
      assert a + b == b;
    } else {
      ResultIdsConcat(a[1..], b);
      assert (a + b)[1..] == a[1..] + b;
    }
  }

  lemma ShapesConcat(a: seq<Message>, b: seq<Message>)
    ensures Shapes(a + b) == Shapes(a) + Shapes(b)
  {
  }

  lemma ShapesConcatAligned(a: seq<Shape>, b: seq<Shape>)
    requires AlignedShapes(a) && Open(a, |a|) == [] && AlignedShapes(b)
    ensures AlignedShapes(a + b)
  {
    forall i | 0 <= i < |a + b| ensures (a + b)[i].results == Open(a + b, i) {
      if i < |a| {
        assert a[i].results == Open(a, i);
      } else {
        assert b[i - |a|].results == Open(b, i - |a|);
      }
    }
  }

  lemma ShapesAppendAligned(a: seq<Shape>, s: Shape)
    requires AlignedShapes(a) && InRole(s) && s.results == Open(a, |a|)
    ensures AlignedShapes(a + [s])
  {
    forall i | 0 <= i < |a + [s]| ensures (a + [s])[i].results == Open(a + [s], i) {
      if i < |a| {
        assert a[i].results == Open(a, i);
      }
    }
  }

  lemma ShapesSuffixAligned(ss: seq<Shape>, n: nat)
    requires AlignedShapes(ss) && n < |ss| && ss[n].results == []
    ensures AlignedShapes(ss[n..])
  {
    forall i | 0 <= i < |ss[n..]| ensures ss[n..][i].results == Open(ss[n..], i) {
      assert ss[n + i].results == Open(ss, n + i);
    }
  }

  lemma PendingIsOpen(ms: seq<Message>)
    ensures Pending(ms) == Open(Shapes(ms), |ms|)
  {
  }

  lemma AlignedAppend(ms: seq<Message>, m: Message)
    requires Aligned(ms) && InRole(ShapeOf(m)) && Results(m) == Pending(ms)
    ensures Aligned(ms + [m]) && Pending(ms + [m]) == Uses(m)
  {
    PendingIsOpen(ms);
    ShapesAppendAligned(Shapes(ms), ShapeOf(m));
    ShapesConcat(ms, [m]);
    assert Shapes([m]) == [ShapeOf(m)];
  }

  lemma AlignedPrefix(ms: seq<Message>, n: nat)
    requires Aligned(ms) && n <= |ms|
    ensures Aligned(ms[..n])
  {
    var ss := Shapes(ms);
    assert Shapes(ms[..n]) == ss[..n];
    forall i | 0 <= i < n ensures ss[..n][i].results == Open(ss[..n], i) {
      assert ss[i].results == Open(ss, i);
    }
  }

  /** In an aligned history the last message answers what the rest leaves open. */
  lemma AlignedLast(ms: seq<Message>)
    requires Aligned(ms) && ms != []
    ensures var n := |ms| - 1;
            Aligned(ms[..n]) && InRole(ShapeOf(ms[n])) && Results(ms[n]) == Pending(ms[..n])
  {
    var n := |ms| - 1;
    AlignedPrefix(ms, n);
    var ss := Shapes(ms);
    assert ss[n] == ShapeOf(ms[n]) && ss[n].results == Open(ss, n);
    assert n > 0 ==> ss[n - 1] == ShapeOf(ms[n - 1]) && ms[..n][n - 1] == ms[n - 1];
  }

  lemma AlignedConcat(a: seq<Message>, b: seq<Message>)
    requires WellPaired(a) && Aligned(b)
    ensures Aligned(a + b)
    ensures b != [] ==> Pending(a + b) == Pending(b)
  {
    PendingIsOpen(a);
    ShapesConcat(a, b);
    ShapesConcatAligned(Shapes(a), Shapes(b));
  }

  /** A suffix whose first message answers nothing stands on its own. */
  lemma AlignedSuffix(ms: seq<Message>, n: nat)
    requires Aligned(ms) && n < |ms| && Results(ms[n]) == []
    ensures Aligned(ms[n..]) && Pending(ms[n..]) == Pending(ms)
  {
    assert Shapes(ms)[n] == ShapeOf(ms[n]);
    assert Shapes(ms[n..]) == Shapes(ms)[n..];
    ShapesSuffixAligned(Shapes(ms), n);
  }

  // -- adding user text --------------------------------------------------------------

  function WithUserText(ms: seq<Message>, text: string): seq<Message> {
    if ms != [] && ms[|ms| - 1].role == User && ms[|ms| - 1].content.Blocks? then
      ms[..|ms| - 1] + [Message(User, Blocks(ms[|ms| - 1].content.blocks + [Text(text)]))]
    else ms + [Message(User, Blocks([Text(text)]))]
  }

  /** User text folds into a trailing user turn, or opens one; either way the history can be sent. */
  lemma UserTextSendable(ms: seq<Message>, text: string)
    requires WellPaired(ms)
    ensures Sendable(WithUserText(ms, text))
  {
    TextIds(text);
    if ms != [] && ms[|ms| - 1].role == User && ms[|ms| - 1].content.Blocks? {
      var n := |ms| - 1;
      AlignedLast(ms);
      UseIdsConcat(ms[n].content.blocks, [Text(text)]);
      ResultIdsConcat(ms[n].content.blocks, [Text(text)]);
      AlignedAppend(ms[..n], Message(User, Blocks(ms[n].content.blocks + [Text(text)])));
    } else {
      AlignedAppend(ms, Message(User, Blocks([Text(text)])));
    }
  }

  lemma TextIds(text: string)
    ensures UseIds([Text(text)]) == [] && ResultIds([Text(text)]) == []
  {
    assert [Text(text)][1..] == [];
  }

  lemma UserTextClean(ms: seq<Message>, text: string)
    requires Clean(ms)
    ensures Clean(WithUserText(ms, text))
  {
  }
}

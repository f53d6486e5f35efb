/** The journal as text: hash-chained lines, torn appends, and what a verified chain pins down.
    The line codec and the digest are parameters; their laws are hypotheses of the lemmas that need them. */
module JournalFile {
  import opened Outcomes
  import opened ExecutionState

  /** What a line's digest covers. */
  datatype Body = Body(version: int, sequence: int, approvalId: string, previous: string, event: Event)
  datatype Entry = Entry(body: Body, digest: string)

  /** Decoding gives nothing for a malformed line or one without a text digest. */
  datatype Codec = Codec(encode: Entry -> string, decode: string -> Option<Entry>, digest: Body -> string)

  datatype Corruption = Unfinished | NotAnEntry | BadSequence | WrongApproval | BrokenChain | Tampered

  const VERSION := 1

  /** A canonical line decodes to what was encoded and holds no raw newline (section 7 of RFC 8259). */
  ghost predicate Lawful(c: Codec) {
    forall e: Entry :: c.decode(c.encode(e)) == Some(e) && '\n' !in c.encode(e)
  }

  ghost predicate Injective(c: Codec) {
    forall a: Body, b: Body :: c.digest(a) == c.digest(b) ==> a == b
  }

  // -- lines -------------------------------------------------------------------

  predicate Finished(raw: string) {
    raw != "" && raw[|raw| - 1] == '\n'
  }

  function FirstBreak(raw: string): (n: nat)
    ensures n <= |raw| && '\n' !in raw[..n] && (n < |raw| ==> raw[n] == '\n')
  {
    if raw == "" || raw[0] == '\n' then 0
    else
      var n := 1 + FirstBreak(raw[1..]);
      assert raw[..n] == [raw[0]] + raw[1..][..n - 1];
      n
  }

  /** The pieces between newlines, without the one after the last newline. */
  function Lines(raw: string): seq<string>
    decreases |raw|
  {
    var n := FirstBreak(raw);
    if n == |raw| then [] else [raw[..n]] + Lines(raw[n + 1..])
  }

  lemma BreaksAt(raw: string, n: nat)
    requires n < |raw| && raw[n] == '\n' && '\n' !in raw[..n]
    ensures FirstBreak(raw) == n
  {
    var m := FirstBreak(raw);
    assert forall j :: 0 <= j < n ==> raw[j] == raw[..n][j];
    assert forall j :: 0 <= j < m ==> raw[j] == raw[..m][j];
  }

  /** Splitting peels off one newline-free piece. */
  lemma LinesPeel(piece: string, rest: string)
    requires '\n' !in piece
    ensures Lines(piece + "\n" + rest) == [piece] + Lines(rest)
  {
    var all := piece + "\n" + rest;
    assert all[..|piece|] == piece && all[|piece| + 1..] == rest;
    BreaksAt(all, |piece|);
  }

  lemma Peel(raw: string) returns (piece: string, rest: string)
    requires Finished(raw)
    ensures raw == piece + "\n" + rest && '\n' !in piece && (rest == "" || Finished(rest))
  {
    var m := FirstBreak(raw);
    assert raw[..|raw|] == raw && raw[|raw| - 1] in raw;
    piece, rest := raw[..m], raw[m + 1..];
    assert rest != "" ==> rest[|rest| - 1] == raw[|raw| - 1];
  }

  lemma {:induction false} LinesAppend(raw: string, line: string)
    requires raw == "" || Finished(raw)
    requires '\n' !in line
    ensures Lines(raw + line + "\n") == Lines(raw) + [line]
    decreases |raw|
  {
    if raw == "" {
      assert raw + line + "\n" == line + "\n" + "";
      LinesPeel(line, "");
      assert Lines("") == [];
    } else {
      var piece, rest := Peel(raw);
      assert raw + line + "\n" == piece + "\n" + (rest + line + "\n");
      LinesPeel(piece, rest);
      LinesPeel(piece, rest + line + "\n");
      LinesAppend(rest, line);
    }
  }

  // -- verification --------------------------------------------------------------

  function TailDigest(entries: seq<Entry>): string {
    if entries == [] then "" else entries[|entries| - 1].digest
  }

  /** Whether `line` may be the next one after `entries`. */
  function Check(c: Codec, id: string, entries: seq<Entry>, line: string): Result<Entry, Corruption> {
    match c.decode(line)
    case None => Err(NotAnEntry)
    case Some(e) =>
      if e.body.version != VERSION || e.body.sequence != |entries| + 1 then Err(BadSequence)
      else if e.body.approvalId != id then Err(WrongApproval)
      else if e.body.previous != TailDigest(entries) then Err(BrokenChain)
      else if e.digest != c.digest(e.body) then Err(Tampered)
      else Ok(e)
  }

  function Verify(c: Codec, id: string, lines: seq<string>): (r: Result<seq<Entry>, Corruption>)
    ensures r.Ok? ==> |r.value| == |lines|
  {
    if lines == [] then Ok([])
    else
      match Verify(c, id, lines[..|lines| - 1])
      case Err(e) => Err(e)
      case Ok(entries) =>
        match Check(c, id, entries, lines[|lines| - 1])
        case Err(e) => Err(e)
        case Ok(entry) => Ok(entries + [entry])
  }

  function LoadText(c: Codec, id: string, raw: string): Result<seq<Entry>, Corruption> {
    if !Finished(raw) then Err(Unfinished) else Verify(c, id, Lines(raw))
  }

  lemma {:induction false} CorruptionPersists(c: Codec, id: string, lines: seq<string>, n: nat)
    requires n <= |lines| && Verify(c, id, lines[..n]).Err?
    ensures Verify(c, id, lines) == Verify(c, id, lines[..n])
    decreases |lines| - n
  {
    if n == |lines| {
      assert lines[..n] == lines;
    } else {
      assert lines[..n + 1][..n] == lines[..n];
      CorruptionPersists(c, id, lines, n + 1);
    }
  }

  /** The reader's look at one line: its number and the digest of the line before are all it remembers. */
  method CheckLine(c: Codec, id: string, sequence: nat, previous: string, line: string, ghost entries: seq<Entry>)
    returns (r: Result<Entry, Corruption>)
    requires sequence == |entries| + 1 && previous == TailDigest(entries)
    ensures r == Check(c, id, entries, line)
  {
    var decoded := c.decode(line);
    if decoded.None? { return Err(NotAnEntry); }
    var e := decoded.value;
    if e.body.version != VERSION || e.body.sequence != sequence { return Err(BadSequence); }
    if e.body.approvalId != id { return Err(WrongApproval); }
    if e.body.previous != previous { return Err(BrokenChain); }
    if e.digest != c.digest(e.body) { return Err(Tampered); }
    r := Ok(e);
  }

  lemma VerifyNext(c: Codec, id: string, lines: seq<string>, i: nat, entries: seq<Entry>)
    requires i < |lines| && Verify(c, id, lines[..i]) == Ok(entries)
    ensures match Check(c, id, entries, lines[i])
      case Ok(e) => Verify(c, id, lines[..i + 1]) == Ok(entries + [e])
      case Err(e) => Verify(c, id, lines) == Err(e)
  {
    assert lines[..i + 1][..i] == lines[..i];
    if Check(c, id, entries, lines[i]).Err? {
      CorruptionPersists(c, id, lines, i + 1);
    }
  }

  /** The reader's one pass over the lines. */
  method Load(c: Codec, id: string, raw: string) returns (r: Result<seq<Entry>, Corruption>)
    ensures r == LoadText(c, id, raw)
  {
    if !Finished(raw) {
      return Err(Unfinished);
    }
    var lines := Lines(raw);
    var previous := "";
    var entries: seq<Entry> := [];
    var i := 0;
    while i < |lines|
      invariant 0 <= i <= |lines|
      invariant Verify(c, id, lines[..i]) == Ok(entries) && previous == TailDigest(entries)
    {
      VerifyNext(c, id, lines, i, entries);
      var checked := CheckLine(c, id, i + 1, previous, lines[i], entries);
      if checked.Err? {
        return Err(checked.error);
      }
      previous := checked.value.digest;
      entries := entries + [checked.value];
      i := i + 1;
    }
    assert lines[..i] == lines;
    return Ok(entries);
  }

  // -- appending ---------------------------------------------------------------

  /** The entry an append adds: chained to the last line, whatever came before it. */
  function NextEntry(c: Codec, id: string, entries: seq<Entry>, event: Event): Entry {
    var body := Body(VERSION, |entries| + 1, id, TailDigest(entries), event);
    Entry(body, c.digest(body))
  }

  function NextLine(c: Codec, id: string, entries: seq<Entry>, event: Event): string {
    c.encode(NextEntry(c, id, entries, event)) + "\n"
  }

  /** What is in the file: a missing one holds no text, but it is not an empty one. */
  function TextOf(disk: Option<string>): string {
    match disk case None => "" case Some(raw) => raw
  }

  /** The entries a file stands for before an append: a missing file has none, an empty one cannot be read. */
  ghost predicate Stands(c: Codec, id: string, disk: Option<string>, entries: seq<Entry>) {
    match disk
    case None => entries == []
    case Some(raw) => LoadText(c, id, raw) == Ok(entries)
  }

  lemma AppendVerifies(c: Codec, id: string, disk: Option<string>, entries: seq<Entry>, event: Event)
    requires Lawful(c) && Stands(c, id, disk, entries)
    ensures LoadText(c, id, TextOf(disk) + NextLine(c, id, entries, event)) == Ok(entries + [NextEntry(c, id, entries, event)])
  {
    var raw, line := TextOf(disk), c.encode(NextEntry(c, id, entries, event));
    assert raw + (line + "\n") == raw + line + "\n";
    LinesAppend(raw, line);
    StandingLines(c, id, disk, entries);
    OneMoreLine(c, id, Lines(raw), entries, event);
  }

  lemma StandingLines(c: Codec, id: string, disk: Option<string>, entries: seq<Entry>)
    requires Stands(c, id, disk, entries)
    ensures Verify(c, id, Lines(TextOf(disk))) == Ok(entries)
  {
    assert Lines("") == [];
  }

  lemma OneMoreLine(c: Codec, id: string, lines: seq<string>, entries: seq<Entry>, event: Event)
    requires Lawful(c) && Verify(c, id, lines) == Ok(entries)
    ensures var e := NextEntry(c, id, entries, event); Verify(c, id, lines + [c.encode(e)]) == Ok(entries + [e])
  {
    var e := NextEntry(c, id, entries, event);
    var longer := lines + [c.encode(e)];
    assert longer[..|longer| - 1] == lines;
    assert Check(c, id, entries, c.encode(e)) == Ok(e);
  }

  /** Crash atomicity: however many characters of an append reach the disk, the reader sees the old journal,
      the new one, or a torn line, never a third state. */
  lemma CrashAtomicity(c: Codec, id: string, disk: Option<string>, entries: seq<Entry>, event: Event, written: nat)
    requires Lawful(c) && Stands(c, id, disk, entries)
    requires written <= |NextLine(c, id, entries, event)|
    ensures var line := NextLine(c, id, entries, event);
            var after := LoadText(c, id, TextOf(disk) + line[..written]);
            if written == 0 then after == LoadText(c, id, TextOf(disk))
            else if written < |line| then after == Err(Unfinished)
            else after == Ok(entries + [NextEntry(c, id, entries, event)])
  {
    var raw, line := TextOf(disk), NextLine(c, id, entries, event);
    if written == 0 {
      assert raw + line[..0] == raw;
    } else if written < |line| {
      var torn := raw + line[..written];
      var text := c.encode(NextEntry(c, id, entries, event));
      assert torn[|torn| - 1] == line[..written][written - 1] == text[written - 1];
      assert text[written - 1] in text;
    } else {
      assert line[..written] == line;
      AppendVerifies(c, id, disk, entries, event);
    }
  }

  function EventsOf(entries: seq<Entry>): seq<Event> {
    seq(|entries|, i requires 0 <= i < |entries| => entries[i].body.event)
  }

  datatype ReadError = Corrupt(cause: Corruption) | Illegal(state: StateError)

  /** What `load` answers: the snapshot the verified events replay to. */
  function ReadSnapshot(c: Codec, id: string, receipt: string -> string, raw: string): Result<Snapshot, ReadError> {
    match LoadText(c, id, raw)
    case Err(e) => Err(Corrupt(e))
    case Ok(entries) =>
      match Replay(receipt, EventsOf(entries))
      case Err(e) => Err(Illegal(e))
      case Ok(s) => Ok(s)
  }

  /** After a crash during an append, a reader that gets a snapshot gets the old one or the new one. */
  lemma CrashedSnapshot(c: Codec, id: string, receipt: string -> string, disk: Option<string>, entries: seq<Entry>,
                        event: Event, written: nat)
    requires Lawful(c) && Stands(c, id, disk, entries)
    requires written <= |NextLine(c, id, entries, event)|
    ensures var after := ReadSnapshot(c, id, receipt, TextOf(disk) + NextLine(c, id, entries, event)[..written]);
            after.Ok? ==> || after == ReadSnapshot(c, id, receipt, TextOf(disk))
                          || Replay(receipt, EventsOf(entries) + [event]) == Ok(after.value)
  {
    CrashAtomicity(c, id, disk, entries, event, written);
    var grown := entries + [NextEntry(c, id, entries, event)];
    assert EventsOf(grown) == EventsOf(entries) + [event];
  }

  /** The writer looks at the last line only, and refuses a torn file. */
  method Append(c: Codec, id: string, disk: Option<string>, event: Event) returns (r: Result<string, Corruption>)
    ensures forall entries :: Lawful(c) && Stands(c, id, disk, entries) ==>
              && r == Ok(TextOf(disk) + NextLine(c, id, entries, event))
              && LoadText(c, id, r.value) == Ok(entries + [NextEntry(c, id, entries, event)])
    ensures disk.Some? && !Finished(disk.value) ==> r == Err(Unfinished)
  {
    var previous, sequence := "", 1;
    if disk.Some? {
      if !Finished(disk.value) {
        return Err(Unfinished);
      }
      var lines := Lines(disk.value);
      if lines == [] {
        return Err(NotAnEntry);
      }
      var last := c.decode(lines[|lines| - 1]);
      if last.None? {
        return Err(NotAnEntry);
      }
      previous, sequence := last.value.digest, last.value.body.sequence + 1;
    }
    var body := Body(VERSION, sequence, id, previous, event);
    var line := c.encode(Entry(body, c.digest(body))) + "\n";
    forall entries | Lawful(c) && Stands(c, id, disk, entries)
      ensures line == NextLine(c, id, entries, event)
      ensures LoadText(c, id, TextOf(disk) + line) == Ok(entries + [NextEntry(c, id, entries, event)])
    {
      AppendVerifies(c, id, disk, entries, event);
    }
    return Ok(TextOf(disk) + line);
  }

  // -- what the chain pins down ----------------------------------------------------

  /** Two logs of the same approval that both verify and end in the same digest are the same log. */
  lemma {:induction false} TailDigestPinsLog(c: Codec, id: string, left: seq<string>, right: seq<string>)
    requires Injective(c) && left != [] && right != []
    requires Verify(c, id, left).Ok? && Verify(c, id, right).Ok?
    requires TailDigest(Verify(c, id, left).value) == TailDigest(Verify(c, id, right).value)
    ensures Verify(c, id, left) == Verify(c, id, right)
    decreases |left|
  {
    var a, b := Verify(c, id, left).value, Verify(c, id, right).value;
    var a', b' := Verify(c, id, left[..|left| - 1]).value, Verify(c, id, right[..|right| - 1]).value;
    assert a == a' + [a[|a| - 1]] && b == b' + [b[|b| - 1]];
    assert c.digest(a[|a| - 1].body) == c.digest(b[|b| - 1].body);
    assert |a'| == |b'|;
    if a' != [] {
      TailDigestPinsLog(c, id, left[..|left| - 1], right[..|right| - 1]);
    }
  }

  // -- what it takes for a text to be a journal ------------------------------------------

  function Unlines(lines: seq<string>): string {
    if lines == [] then "" else lines[0] + "\n" + Unlines(lines[1..])
  }

  /** The lines are the text, cut at its newlines and nowhere else. */
  lemma {:induction false} LinesRejoin(raw: string)
    requires raw == "" || Finished(raw)
    ensures Unlines(Lines(raw)) == raw && forall line <- Lines(raw) :: '\n' !in line
    decreases |raw|
  {
    if raw != "" {
      var piece, rest := Peel(raw);
      LinesPeel(piece, rest);
      LinesRejoin(rest);
      assert ([piece] + Lines(rest))[1..] == Lines(rest);
    }
  }

  /** Entry `i` stands where it says, in the journal it says, behind the entry it names, and as it was digested. */
  predicate InChain(c: Codec, id: string, entries: seq<Entry>, i: nat)
    requires i < |entries|
  {
    var body := entries[i].body;
    && body.version == 1 && body.sequence == i + 1 && body.approvalId == id
    && body.previous == (if i == 0 then "" else entries[i - 1].digest)
    && entries[i].digest == c.digest(body)
  }

  ghost predicate Reads(c: Codec, id: string, lines: seq<string>, entries: seq<Entry>) {
    && |entries| == |lines|
    && forall i {:trigger InChain(c, id, entries, i)} :: 0 <= i < |lines| ==> c.decode(lines[i]) == Some(entries[i]) && InChain(c, id, entries, i)
  }

  lemma {:induction false} VerifiedIff(c: Codec, id: string, lines: seq<string>, entries: seq<Entry>)
    ensures Verify(c, id, lines) == Ok(entries) <==> Reads(c, id, lines, entries)
    decreases |lines|
  {
    if lines != [] && |entries| == |lines| {
      var n := |lines| - 1;
      VerifiedIff(c, id, lines[..n], entries[..n]);
      assert entries == entries[..n] + [entries[n]];
      LastInChain(c, id, lines, entries);
    }
  }

  lemma LastInChain(c: Codec, id: string, lines: seq<string>, entries: seq<Entry>)
    requires lines != [] && |entries| == |lines|
    ensures var n := |lines| - 1;
      && (Reads(c, id, lines, entries) <==>
            Reads(c, id, lines[..n], entries[..n]) && Check(c, id, entries[..n], lines[n]) == Ok(entries[n]))
  {
    var n := |lines| - 1;
    assert TailDigest(entries[..n]) == if n == 0 then "" else entries[n - 1].digest;
    assert InChain(c, id, entries, n) && c.decode(lines[n]) == Some(entries[n]) <==> Check(c, id, entries[..n], lines[n]) == Ok(entries[n]);
    forall i | 0 <= i < n ensures InChain(c, id, entries[..n], i) == InChain(c, id, entries, i) && lines[..n][i] == lines[i] {
    }
    if Reads(c, id, lines[..n], entries[..n]) && Check(c, id, entries[..n], lines[n]) == Ok(entries[n]) {
      forall i | 0 <= i < |lines| ensures c.decode(lines[i]) == Some(entries[i]) && InChain(c, id, entries, i) {
        if i < n {
          assert InChain(c, id, entries[..n], i);
        }
      }
    }
    if Reads(c, id, lines, entries) {
      forall i | 0 <= i < n ensures c.decode(lines[..n][i]) == Some(entries[..n][i]) && InChain(c, id, entries[..n], i) {
        assert InChain(c, id, entries, i);
      }
    }
  }

  /** A text is read as a journal exactly if it ends in a newline and each of its lines is the entry that belongs there. */
  lemma LoadedIff(c: Codec, id: string, raw: string, entries: seq<Entry>)
    ensures LoadText(c, id, raw) == Ok(entries) <==> Finished(raw) && Reads(c, id, Lines(raw), entries)
  {
    VerifiedIff(c, id, Lines(raw), entries);
  }
}

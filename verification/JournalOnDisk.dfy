/** The journal's text and the journal the protocol speaks of: the same snapshots, and the same three ways to crash. */
module JournalOnDisk {
  import opened Outcomes
  import opened ExecutionState
  import J = ExecutionJournal
  import T = JournalFile

  /** What is on disk is this journal: no file, chained lines that hold its events, or text with a torn end. */
  ghost predicate Holds(c: T.Codec, id: string, disk: Option<string>, file: J.File) {
    if file.torn then disk.Some? && !T.Finished(disk.value)
    else if file.events == [] then disk.None?
    else
      && disk.Some? && T.LoadText(c, id, disk.value).Ok?
      && T.EventsOf(T.LoadText(c, id, disk.value).value) == file.events
  }

  /** Reading the text and replaying the events give the same snapshot, or both nothing. */
  lemma ReadersAgree(c: T.Codec, id: string, receipt: string -> string, disk: Option<string>, file: J.File)
    requires Holds(c, id, disk, file)
    ensures disk.None? ==> J.Load(receipt, file) == Err(J.Missing)
    ensures disk.Some? ==>
      var text, loaded := T.ReadSnapshot(c, id, receipt, disk.value), J.Load(receipt, file);
      (text.Ok? <==> loaded.Ok?) && (text.Ok? ==> text.value == loaded.value)
  {
  }

  /** An append cut off by a crash is one of the protocol's faults: nothing was written, the whole event was, or the file
      is torn, also when it was only just created. */
  lemma CrashIsAFault(c: T.Codec, id: string, disk: Option<string>, file: J.File, entries: seq<T.Entry>, event: Event, written: nat)
    requires T.Lawful(c) && !file.torn && Holds(c, id, disk, file)
    requires T.Stands(c, id, disk, entries) && T.EventsOf(entries) == file.events
    requires written <= |T.NextLine(c, id, entries, event)|
    ensures var line := T.NextLine(c, id, entries, event);
      var left := Some(T.TextOf(disk) + line[..written]);
      if written == |line| then Holds(c, id, left, J.Appended(file, event))
      else if written > 0 || disk.None? then Holds(c, id, left, file.(torn := true))
      else Holds(c, id, left, file)
  {
    T.CrashAtomicity(c, id, disk, entries, event, written);
    var line := T.NextLine(c, id, entries, event);
    var text := T.TextOf(disk) + line[..written];
    if written == |line| {
      assert T.EventsOf(entries + [T.NextEntry(c, id, entries, event)]) == T.EventsOf(entries) + [event];
    } else if written > 0 {
      Unfinished(c, id, text);
    } else {
      assert text == T.TextOf(disk);
    }
  }

  lemma Unfinished(c: T.Codec, id: string, text: string)
    requires T.LoadText(c, id, text) == Err(T.Unfinished)
    ensures !T.Finished(text)
  {
    if T.Finished(text) {
      NeverUnfinished(c, id, T.Lines(text));
    }
  }

  lemma {:induction false} NeverUnfinished(c: T.Codec, id: string, lines: seq<string>)
    ensures T.Verify(c, id, lines) != Err(T.Unfinished)
    decreases |lines|
  {
    if lines != [] {
      NeverUnfinished(c, id, lines[..|lines| - 1]);
    }
  }

  /** The writer of the text and the writer of the events agree: it appends to whatever stands, and refuses a torn file. */
  method Append(c: T.Codec, id: string, disk: Option<string>, ghost file: J.File, ghost entries: seq<T.Entry>, event: Event)
    returns (left: Option<string>)
    requires T.Lawful(c) && Holds(c, id, disk, file)
    requires !file.torn ==> T.Stands(c, id, disk, entries) && T.EventsOf(entries) == file.events
    ensures if file.torn then left == disk else Holds(c, id, left, J.Appended(file, event))
  {
    var r := T.Append(c, id, disk, event);
    left := if r.Ok? then Some(r.value) else disk;
    if !file.torn {
      var line := T.NextLine(c, id, entries, event);
      assert line[..|line|] == line;
      CrashIsAFault(c, id, disk, file, entries, event, |line|);
    }
  }
}

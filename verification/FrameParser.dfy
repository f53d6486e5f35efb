/** Event frames on a helper's standard output, parsed as the pipe delivers them. */
module FrameParser {
  import opened Outcomes
  import opened Sequences

  type byte = b: int | 0 <= b < 256

  const NEWLINE: byte := 10
  const RECORD_SEPARATOR: byte := 0x1e

  /** A record separator, then "BIRKIN_APPROVAL_EVENT ". */
  const PREFIX: seq<byte> :=
    [0x1e, 66, 73, 82, 75, 73, 78, 95, 65, 80, 80, 82, 79, 86, 65, 76, 95, 69, 86, 69, 78, 84, 32]

  /** What the parser reports: a frame to dispatch, stray output to log, or a frame cut off by the end of the stream. */
  datatype Item = Frame(payload: seq<byte>) | Stray(bytes: seq<byte>) | CutFrame(bytes: seq<byte>)

  // -- searching -----------------------------------------------------------------

  predicate At(data: seq<byte>, i: nat) {
    i + |PREFIX| <= |data| && data[i..i + |PREFIX|] == PREFIX
  }

  function FindFrom(data: seq<byte>, i: nat): (r: Option<nat>)
    requires i <= |data|
    ensures r.Some? ==> i <= r.value && r.value + |PREFIX| <= |data|
    decreases |data| - i
  {
    if At(data, i) then Some(i)
    else if i == |data| then None
    else FindFrom(data, i + 1)
  }

  function Find(data: seq<byte>): Option<nat> {
    FindFrom(data, 0)
  }

  ghost predicate NoMarker(data: seq<byte>, i: nat, end: nat) {
    forall j | i <= j < end :: !At(data, j)
  }

  /** The first occurrence of the marker. */
  lemma {:induction false} FindMeans(data: seq<byte>, i: nat)
    requires i <= |data|
    ensures match FindFrom(data, i)
      case Some(m) => At(data, m) && NoMarker(data, i, m)
      case None => NoMarker(data, i, |data|)
    decreases |data| - i
  {
    if !At(data, i) && i < |data| {
      FindMeans(data, i + 1);
    }
  }

  function NewlineFrom(data: seq<byte>, i: nat): (r: Option<nat>)
    requires i <= |data|
    ensures r.Some? ==> i <= r.value < |data| && data[r.value] == NEWLINE
    decreases |data| - i
  {
    if i == |data| then None else if data[i] == NEWLINE then Some(i) else NewlineFrom(data, i + 1)
  }

  predicate EndsInPartial(data: seq<byte>, k: nat) {
    k <= |data| && k < |PREFIX| && data[|data| - k..] == PREFIX[..k]
  }

  function Partial(data: seq<byte>, k: nat): (r: nat)
    requires k <= |data| && k < |PREFIX|
    ensures r <= k
  {
    if k == 0 || EndsInPartial(data, k) then k else Partial(data, k - 1)
  }

  function LongestPartial(data: seq<byte>): (r: nat)
    ensures r <= |data| && r < |PREFIX|
  {
    Partial(data, if |data| < |PREFIX| - 1 then |data| else |PREFIX| - 1)
  }

  lemma {:induction false} PartialMeans(data: seq<byte>, k: nat)
    requires k <= |data| && k < |PREFIX|
    ensures EndsInPartial(data, Partial(data, k))
    ensures forall j :: Partial(data, k) < j <= k ==> !EndsInPartial(data, j)
  {
    if k > 0 && !EndsInPartial(data, k) {
      PartialMeans(data, k - 1);
    }
  }

  /** The longest proper prefix of the marker that `data` ends in. */
  lemma LongestPartialMeans(data: seq<byte>)
    ensures EndsInPartial(data, LongestPartial(data))
    ensures forall j :: LongestPartial(data) < j ==> !EndsInPartial(data, j)
  {
    PartialMeans(data, if |data| < |PREFIX| - 1 then |data| else |PREFIX| - 1);
  }

  // -- the parser -------------------------------------------------------------------

  function StrayItem(bytes: seq<byte>): seq<Item> {
    if bytes == [] then [] else [Stray(bytes)]
  }

  /** Output without a marker is stray, but for a partial marker at its end. */
  function RetainPartial(data: seq<byte>): (seq<Item>, seq<byte>) {
    var n := |data| - LongestPartial(data);
    (StrayItem(data[..n]), data[n..])
  }

  /** What one call reports, and the suffix it keeps for the next. */
  function Parse(data: seq<byte>, final: bool): (seq<Item>, seq<byte>)
    decreases |data|, 1
  {
    if data == [] then ([], [])
    else
      match Find(data)
      case None =>
        if final then ([Stray(data)], []) else RetainPartial(data)
      case Some(m) =>
        var (items, kept) := ParseFrame(data[m..], final);
        (StrayItem(data[..m]) + items, kept)
  }

  /** The same, for data that starts with a marker. */
  function ParseFrame(data: seq<byte>, final: bool): (seq<Item>, seq<byte>)
    requires |data| >= |PREFIX|
    decreases |data|, 0
  {
    match NewlineFrom(data, |PREFIX|)
    case None => if final then ([CutFrame(data)], []) else ([], data)
    case Some(q) =>
      var (items, kept) := Parse(data[q + 1..], final);
      ([Frame(data[|PREFIX|..q])] + items, kept)
  }

  method PartialPrefixLength(data: seq<byte>) returns (length: nat)
    ensures length == LongestPartial(data)
  {
    var longest := if |data| < |PREFIX| - 1 then |data| else |PREFIX| - 1;
    length := longest;
    while length > 0 && !EndsInPartial(data, length)
      invariant length <= longest
      invariant Partial(data, length) == LongestPartial(data)
    {
      length := length - 1;
    }
  }

  /** One turn of the loop that dispatches frames: what has been reported, and what is left to parse. */
  lemma OneFrame(items: seq<Item>, data: seq<byte>, m: nat, q: nat, final: bool)
    requires Find(data) == Some(m) && NewlineFrom(data[m..], |PREFIX|) == Some(q)
    ensures var (now, later) := (Parse(data, final), Parse(data[m..][q + 1..], final));
      && items + now.0 == items + StrayItem(data[..m]) + [Frame(data[m..][|PREFIX|..q])] + later.0
      && now.1 == later.1
  {
    var frame, later := [Frame(data[m..][|PREFIX|..q])], Parse(data[m..][q + 1..], final).0;
    Assoc(items, StrayItem(data[..m]), frame + later);
    Assoc(items + StrayItem(data[..m]), frame, later);
  }

  /** The loop that dispatches complete frames and retains an incomplete suffix. */
  method ConsumeHelperStdout(bytes: seq<byte>, final: bool) returns (items: seq<Item>, kept: seq<byte>)
    ensures (items, kept) == Parse(bytes, final)
  {
    var data := bytes;
    items := [];
    assert items + Parse(data, final).0 == Parse(data, final).0;
    while data != []
      invariant Parse(bytes, final).0 == items + Parse(data, final).0
      invariant Parse(bytes, final).1 == Parse(data, final).1
      decreases |data|
    {
      var marker := Find(data);
      if marker.None? {
        if final {
          return items + [Stray(data)], [];
        }
        var retained := PartialPrefixLength(data);
        return items + StrayItem(data[..|data| - retained]), data[|data| - retained..];
      }
      var m := marker.value;
      var rest := data[m..];
      var newline := NewlineFrom(rest, |PREFIX|);
      if newline.None? {
        if final {
          return items + (StrayItem(data[..m]) + [CutFrame(rest)]), [];
        }
        assert StrayItem(data[..m]) + [] == StrayItem(data[..m]);
        return items + StrayItem(data[..m]), rest;
      }
      var q := newline.value;
      OneFrame(items, data, m, q, final);
      items := items + StrayItem(data[..m]) + [Frame(rest[|PREFIX|..q])];
      data := rest[q + 1..];
    }
    assert items + [] == items;
    kept := [];
  }

  /** All chunks in turn, and a last look when the pipe closes. */
  function Drained(chunks: seq<seq<byte>>, pending: seq<byte>): seq<Item>
    decreases |chunks|
  {
    if chunks == [] then Parse(pending, true).0
    else
      var (items, kept) := Parse(pending + chunks[0], false);
      items + Drained(chunks[1..], kept)
  }

  lemma OneChunk(items: seq<Item>, chunks: seq<seq<byte>>, i: nat, pending: seq<byte>)
    requires i < |chunks|
    ensures var (now, kept) := Parse(pending + chunks[i], false);
      items + Drained(chunks[i..], pending) == items + now + Drained(chunks[i + 1..], kept)
  {
    assert chunks[i..][1..] == chunks[i + 1..] && chunks[i..][0] == chunks[i];
    var (now, kept) := Parse(pending + chunks[i], false);
    Assoc(items, now, Drained(chunks[i + 1..], kept));
  }

  method DrainHelperStdout(chunks: seq<seq<byte>>) returns (items: seq<Item>)
    ensures items == Drained(chunks, [])
  {
    var pending: seq<byte> := [];
    items := [];
    var i := 0;
    assert chunks[0..] == chunks && items + Drained(chunks, pending) == Drained(chunks, pending);
    while i < |chunks|
      invariant 0 <= i <= |chunks|
      invariant Drained(chunks, []) == items + Drained(chunks[i..], pending)
    {
      OneChunk(items, chunks, i, pending);
      var now, kept := ConsumeHelperStdout(pending + chunks[i], false);
      items, pending := items + now, kept;
      i := i + 1;
    }
    var last, _ := ConsumeHelperStdout(pending, true);
    items := items + last;
  }

  // -- what the reports come to -----------------------------------------------------

  /** Reports, blind to how stray output was split up. */
  datatype Token = Dispatch(payload: seq<byte>) | StrayByte(b: byte) | Dropped(bytes: seq<byte>)

  function TokensOf(item: Item): seq<Token> {
    match item
    case Frame(payload) => [Dispatch(payload)]
    case Stray(bytes) => seq(|bytes|, i requires 0 <= i < |bytes| => StrayByte(bytes[i]))
    case CutFrame(bytes) => [Dropped(bytes)]
  }

  function Tokens(items: seq<Item>): seq<Token> {
    if items == [] then [] else TokensOf(items[0]) + Tokens(items[1..])
  }

  function Strays(bytes: seq<byte>): seq<Token> {
    seq(|bytes|, i requires 0 <= i < |bytes| => StrayByte(bytes[i]))
  }

  lemma {:induction false} TokensConcat(a: seq<Item>, b: seq<Item>)
    ensures Tokens(a + b) == Tokens(a) + Tokens(b)
    decreases |a|
  {
    if a == [] {
      assert a + b == b;
    } else {
      TokensConcat(a[1..], b);
      assert (a + b)[1..] == a[1..] + b && (a + b)[0] == a[0];
      Assoc(TokensOf(a[0]), Tokens(a[1..]), Tokens(b));
    }
  }

  lemma StrayTokens(bytes: seq<byte>)
    ensures Tokens(StrayItem(bytes)) == Strays(bytes)
  {
    if bytes != [] {
      assert [Stray(bytes)][1..] == [];
    }
  }

  lemma OneToken(item: Item)
    ensures Tokens([item]) == TokensOf(item)
  {
    assert [item][1..] == [];
  }

  // -- finding the same marker in a longer buffer ---------------------------------------

  lemma FindIs(data: seq<byte>, m: nat)
    requires At(data, m) && NoMarker(data, 0, m)
    ensures Find(data) == Some(m)
  {
    FindMeans(data, 0);
    assert !NoMarker(data, 0, |data|);
  }

  lemma FindIsNone(data: seq<byte>)
    requires NoMarker(data, 0, |data|)
    ensures Find(data) == None
  {
    FindMeans(data, 0);
  }

  lemma AtGrows(data: seq<byte>, more: seq<byte>, i: nat)
    requires i + |PREFIX| <= |data|
    ensures At(data + more, i) == At(data, i)
  {
    assert (data + more)[i..i + |PREFIX|] == data[i..i + |PREFIX|];
  }

  lemma FoundGrows(data: seq<byte>, more: seq<byte>, m: nat)
    requires Find(data) == Some(m)
    ensures Find(data + more) == Some(m)
  {
    FindMeans(data, 0);
    AtGrows(data, more, m);
    forall j | 0 <= j < m ensures !At(data + more, j) {
      AtGrows(data, more, j);
    }
    FindIs(data + more, m);
  }

  lemma AtShifts(data: seq<byte>, n: nat, i: nat)
    requires n <= |data| && i >= n
    ensures At(data, i) == At(data[n..], i - n)
  {
    if i + |PREFIX| <= |data| {
      assert data[n..][i - n..i - n + |PREFIX|] == data[i..i + |PREFIX|];
    }
  }

  /** A marker that straddles the end of `data` starts no earlier than its longest partial. */
  lemma StraddlesLate(data: seq<byte>, more: seq<byte>, i: nat)
    requires i < |data| < i + |PREFIX| && At(data + more, i)
    ensures |data| - i <= LongestPartial(data)
  {
    var k := |data| - i;
    assert data[i..] == (data + more)[i..i + |PREFIX|][..k];
    assert EndsInPartial(data, k);
    LongestPartialMeans(data);
  }

  /** Where no marker is complete, all but the longest partial is stray, whatever follows. */
  lemma NoMarkerBefore(data: seq<byte>, more: seq<byte>, i: nat)
    requires Find(data) == None && i < |data| - LongestPartial(data)
    ensures !At(data + more, i)
  {
    FindMeans(data, 0);
    if i + |PREFIX| <= |data| {
      AtGrows(data, more, i);
    } else if At(data + more, i) {
      StraddlesLate(data, more, i);
    }
  }

  /** Cutting off bytes in front of which no marker starts shifts the search. */
  lemma FindShifts(data: seq<byte>, n: nat)
    requires n <= |data| && NoMarker(data, 0, n)
    ensures Find(data[n..]) == match Find(data) case None => None case Some(m) => Some(m - n)
  {
    FindMeans(data, 0);
    var end := if Find(data).Some? then Find(data).value else |data|;
    forall j | 0 <= j < end - n ensures !At(data[n..], j) {
      AtShifts(data, n, j + n);
    }
    if Find(data).Some? {
      AtShifts(data, n, end);
      FindIs(data[n..], end - n);
    } else {
      FindIsNone(data[n..]);
    }
  }

  lemma NewlineGrows(data: seq<byte>, more: seq<byte>, i: nat)
    requires i <= |data| && NewlineFrom(data, i).Some?
    ensures NewlineFrom(data + more, i) == NewlineFrom(data, i)
    decreases |data| - i
  {
    if data[i] != NEWLINE {
      NewlineGrows(data, more, i + 1);
    }
  }

  /** A partial marker at the end of a longer buffer starts no earlier than the partial kept before. */
  lemma PartialLate(data: seq<byte>, more: seq<byte>, k: nat)
    requires EndsInPartial(data + more, k)
    ensures k <= LongestPartial(data) + |more|
  {
    if k > |more| {
      var all := data + more;
      LongestPartialMeans(data);
      var j := k - |more|;
      assert data[|data| - j..] == all[|all| - k..][..j] == PREFIX[..k][..j];
      assert EndsInPartial(data, j);
    }
  }

  lemma PartialShifts(data: seq<byte>, n: nat)
    requires n <= |data| && LongestPartial(data) <= |data| - n
    ensures LongestPartial(data[n..]) == LongestPartial(data)
  {
    forall k: nat | k <= |data| - n ensures EndsInPartial(data[n..], k) == EndsInPartial(data, k) {
      assert data[n..][|data| - n - k..] == data[|data| - k..];
    }
    LongestPartialMeans(data);
    LongestPartialMeans(data[n..]);
    var a, b := LongestPartial(data[n..]), LongestPartial(data);
    assert EndsInPartial(data, a) && EndsInPartial(data[n..], b);
  }

  // -- chunk invariance ---------------------------------------------------------------

  lemma StraysSplit(bytes: seq<byte>, n: nat)
    requires n <= |bytes|
    ensures Strays(bytes) == Strays(bytes[..n]) + Strays(bytes[n..])
  {
  }

  /** Bytes in front of every marker, and of every partial one that would be kept, are reported as strays and no more. */
  lemma ParseStrays(all: seq<byte>, n: nat, final: bool)
    requires n <= |all| && NoMarker(all, 0, n)
    requires Find(all).None? && !final ==> LongestPartial(all) <= |all| - n
    ensures Tokens(Parse(all, final).0) == Strays(all[..n]) + Tokens(Parse(all[n..], final).0)
    ensures Parse(all, final).1 == Parse(all[n..], final).1
  {
    FindShifts(all, n);
    if all == [] {
    } else if Find(all).Some? {
      ParseStraysToMarker(all, n, Find(all).value, final);
    } else if final {
      LastNoise(all);
      LastNoise(all[n..]);
      StraysSplit(all, n);
    } else {
      KeptNoise(all, n);
    }
  }

  lemma LastNoise(data: seq<byte>)
    requires Find(data).None?
    ensures Tokens(Parse(data, true).0) == Strays(data) && Parse(data, true).1 == []
  {
    if data != [] {
      OneToken(Stray(data));
    }
  }

  lemma KeptNoise(all: seq<byte>, n: nat)
    requires n <= |all| && LongestPartial(all) <= |all| - n && Find(all).None? && Find(all[n..]).None?
    ensures Tokens(Parse(all, false).0) == Strays(all[..n]) + Tokens(Parse(all[n..], false).0)
    ensures Parse(all, false).1 == Parse(all[n..], false).1
  {
    PartialShifts(all, n);
    NoiseReport(all);
    NoiseReport(all[n..]);
    StraysBetween(all, n, |all| - LongestPartial(all));
  }

  lemma StraysBetween(all: seq<byte>, n: nat, cut: nat)
    requires n <= cut <= |all|
    ensures Strays(all[..cut]) == Strays(all[..n]) + Strays(all[n..][..cut - n])
    ensures all[cut..] == all[n..][cut - n..]
  {
    StraysSplit(all[..cut], n);
    assert all[..cut][..n] == all[..n] && all[..cut][n..] == all[n..][..cut - n];
  }

  lemma NoiseReport(data: seq<byte>)
    requires Find(data).None?
    ensures var n := |data| - LongestPartial(data);
      Tokens(Parse(data, false).0) == Strays(data[..n]) && Parse(data, false).1 == data[n..]
  {
    NoiseParsed(data);
    StrayTokens(data[..|data| - LongestPartial(data)]);
  }

  lemma NoiseParsed(data: seq<byte>)
    requires Find(data).None?
    ensures Parse(data, false) == RetainPartial(data)
  {
  }

  lemma ParseStraysToMarker(all: seq<byte>, n: nat, m: nat, final: bool)
    requires n <= m && m + |PREFIX| <= |all| && Find(all) == Some(m) && Find(all[n..]) == Some(m - n)
    ensures Tokens(Parse(all, final).0) == Strays(all[..n]) + Tokens(Parse(all[n..], final).0)
    ensures Parse(all, final).1 == Parse(all[n..], final).1
  {
    assert all[n..][m - n..] == all[m..];
    ParseToMarker(all, m, final);
    ParseToMarker(all[n..], m - n, final);
    StraysSplit(all[..m], n);
    assert all[..m][..n] == all[..n] && all[..m][n..] == all[n..][..m - n];
    Assoc(Strays(all[..n]), Strays(all[n..][..m - n]), Tokens(ParseFrame(all[m..], final).0));
  }

  lemma ParseToMarker(all: seq<byte>, m: nat, final: bool)
    requires Find(all) == Some(m)
    ensures m + |PREFIX| <= |all|
    ensures Tokens(Parse(all, final).0) == Strays(all[..m]) + Tokens(ParseFrame(all[m..], final).0)
    ensures Parse(all, final).1 == ParseFrame(all[m..], final).1
  {
    StrayTokens(all[..m]);
    TokensConcat(StrayItem(all[..m]), ParseFrame(all[m..], final).0);
  }

  /** Parsing a chunk and keeping the suffix loses nothing: the rest of the stream is parsed as if all of it
      had been there from the start. */
  ghost predicate Splits(data: seq<byte>, more: seq<byte>, final: bool) {
    var (items, kept) := Parse(data, false);
    var whole, later := Parse(data + more, final), Parse(kept + more, final);
    Tokens(whole.0) == Tokens(items) + Tokens(later.0) && whole.1 == later.1
  }

  lemma {:induction false} ParseSplits(data: seq<byte>, more: seq<byte>, final: bool)
    ensures Splits(data, more, final)
    decreases |data|, 1
  {
    if data == [] {
      assert data + more == [] + more;
    } else if Find(data).None? {
      SplitsInNoise(data, more, final);
    } else {
      SplitsAtMarker(data, more, final, Find(data).value);
    }
  }

  lemma SplitsInNoise(data: seq<byte>, more: seq<byte>, final: bool)
    requires data != [] && Find(data).None?
    ensures Splits(data, more, final)
  {
    var all, n := data + more, |data| - LongestPartial(data);
    NoMarkerYet(data, more);
    LongestPartialMeans(all);
    PartialLate(data, more, LongestPartial(all));
    assert all[..n] == data[..n] && all[n..] == data[n..] + more;
    ParseStrays(all, n, final);
    NoiseReport(data);
  }

  lemma NoMarkerYet(data: seq<byte>, more: seq<byte>)
    requires Find(data).None?
    ensures NoMarker(data + more, 0, |data| - LongestPartial(data))
  {
    forall j | 0 <= j < |data| - LongestPartial(data) ensures !At(data + more, j) {
      NoMarkerBefore(data, more, j);
    }
  }

  lemma {:induction false} SplitsAtMarker(data: seq<byte>, more: seq<byte>, final: bool, m: nat)
    requires Find(data) == Some(m)
    ensures Splits(data, more, final)
    decreases |data|, 0
  {
    var rest := data[m..];
    match NewlineFrom(rest, |PREFIX|)
    case None => SplitsInFrame(data, more, final, m);
    case Some(q) =>
      ParseSplits(rest[q + 1..], more, final);
      SplitsAfterFrame(rest, more, final, q);
      SplitsToMarker(data, more, final, m);
  }

  ghost predicate FrameSplits(rest: seq<byte>, more: seq<byte>, final: bool)
    requires |rest| >= |PREFIX|
  {
    var (items, kept) := ParseFrame(rest, false);
    var whole, later := ParseFrame(rest + more, final), Parse(kept + more, final);
    Tokens(whole.0) == Tokens(items) + Tokens(later.0) && whole.1 == later.1
  }

  lemma SplitsToMarker(data: seq<byte>, more: seq<byte>, final: bool, m: nat)
    requires Find(data) == Some(m) && FrameSplits(data[m..], more, final)
    ensures Splits(data, more, final)
  {
    var rest := data[m..];
    ParseToMarker(data, m, false);
    GrownToMarker(data, more, final, m);
    var (items, kept) := ParseFrame(rest, false);
    Assoc(Strays(data[..m]), Tokens(items), Tokens(Parse(kept + more, final).0));
  }

  lemma GrownToMarker(data: seq<byte>, more: seq<byte>, final: bool, m: nat)
    requires Find(data) == Some(m)
    ensures Tokens(Parse(data + more, final).0) == Strays(data[..m]) + Tokens(ParseFrame(data[m..] + more, final).0)
    ensures Parse(data + more, final).1 == ParseFrame(data[m..] + more, final).1
  {
    var all := data + more;
    FoundGrows(data, more, m);
    assert all[m..] == data[m..] + more && all[..m] == data[..m];
    ParseToMarker(all, m, final);
  }

  lemma SplitsInFrame(data: seq<byte>, more: seq<byte>, final: bool, m: nat)
    requires Find(data) == Some(m) && NewlineFrom(data[m..], |PREFIX|).None?
    ensures Splits(data, more, final)
  {
    var all, rest := data + more, data[m..];
    FoundGrows(data, more, m);
    assert all[m..] == rest + more && all[..m] == data[..m];
    FindMeans(all, 0);
    ParseStrays(all, m, final);
    StrayTokens(data[..m]);
  }

  lemma SplitsAfterFrame(rest: seq<byte>, more: seq<byte>, final: bool, q: nat)
    requires |rest| >= |PREFIX| && NewlineFrom(rest, |PREFIX|) == Some(q) && Splits(rest[q + 1..], more, final)
    ensures FrameSplits(rest, more, final)
  {
    var dropped := rest[q + 1..];
    var (items, kept) := Parse(dropped, false);
    FrameFirst(rest, false, q);
    GrownFrameFirst(rest, more, final, q);
    Assoc([Dispatch(rest[|PREFIX|..q])], Tokens(items), Tokens(Parse(kept + more, final).0));
  }

  lemma GrownFrameFirst(rest: seq<byte>, more: seq<byte>, final: bool, q: nat)
    requires |rest| >= |PREFIX| && NewlineFrom(rest, |PREFIX|) == Some(q)
    ensures var (items, kept) := Parse(rest[q + 1..] + more, final);
      && Tokens(ParseFrame(rest + more, final).0) == [Dispatch(rest[|PREFIX|..q])] + Tokens(items)
      && ParseFrame(rest + more, final).1 == kept
  {
    NewlineGrows(rest, more, |PREFIX|);
    assert (rest + more)[|PREFIX|..q] == rest[|PREFIX|..q];
    assert (rest + more)[q + 1..] == rest[q + 1..] + more;
    FrameFirst(rest + more, final, q);
  }

  lemma FrameFirst(rest: seq<byte>, final: bool, q: nat)
    requires |rest| >= |PREFIX| && NewlineFrom(rest, |PREFIX|) == Some(q)
    ensures var (items, kept) := Parse(rest[q + 1..], final);
      && Tokens(ParseFrame(rest, final).0) == [Dispatch(rest[|PREFIX|..q])] + Tokens(items)
      && ParseFrame(rest, final).1 == kept
  {
    var step := Frame(rest[|PREFIX|..q]);
    TokensConcat([step], Parse(rest[q + 1..], final).0);
    OneToken(step);
  }

  function Joined(chunks: seq<seq<byte>>): seq<byte> {
    if chunks == [] then [] else chunks[0] + Joined(chunks[1..])
  }

  /** Chunk invariance: however the pipe cuts the stream, the same frames are dispatched, in the same places
      among the same stray bytes, as by one look at the whole stream. */
  lemma {:induction false} ChunksDoNotMatter(chunks: seq<seq<byte>>, pending: seq<byte>)
    ensures Tokens(Drained(chunks, pending)) == Tokens(Parse(pending + Joined(chunks), true).0)
    decreases |chunks|
  {
    if chunks == [] {
      assert pending + [] == pending;
    } else {
      var data, more := pending + chunks[0], Joined(chunks[1..]);
      var (items, kept) := Parse(data, false);
      assert pending + Joined(chunks) == data + more;
      ParseSplits(data, more, true);
      ChunksDoNotMatter(chunks[1..], kept);
      TokensConcat(items, Drained(chunks[1..], kept));
    }
  }

  // -- every byte is accounted for ----------------------------------------------------

  /** The bytes on the pipe that a report stands for. */
  function Wire(token: Token): seq<byte> {
    match token
    case Dispatch(payload) => PREFIX + payload + [NEWLINE]
    case StrayByte(b) => [b]
    case Dropped(bytes) => bytes
  }

  function Wires(tokens: seq<Token>): seq<byte> {
    if tokens == [] then [] else Wire(tokens[0]) + Wires(tokens[1..])
  }

  lemma {:induction false} WiresConcat(a: seq<Token>, b: seq<Token>)
    ensures Wires(a + b) == Wires(a) + Wires(b)
    decreases |a|
  {
    if a == [] {
      assert a + b == b;
    } else {
      WiresConcat(a[1..], b);
      assert (a + b)[1..] == a[1..] + b && (a + b)[0] == a[0];
      Assoc(Wire(a[0]), Wires(a[1..]), Wires(b));
    }
  }

  lemma {:induction false} WiresOfStrays(bytes: seq<byte>)
    ensures Wires(Strays(bytes)) == bytes
    decreases |bytes|
  {
    if bytes != [] {
      assert Strays(bytes)[1..] == Strays(bytes[1..]);
      WiresOfStrays(bytes[1..]);
    }
  }

  lemma WiresOfOne(token: Token)
    ensures Wires([token]) == Wire(token)
  {
    assert [token][1..] == [];
  }

  lemma {:induction false} ParseAccounts(data: seq<byte>, final: bool)
    ensures data == Wires(Tokens(Parse(data, final).0)) + Parse(data, final).1
    ensures final ==> Parse(data, final).1 == []
    decreases |data|, 1
  {
    if data == [] {
    } else if Find(data).None? {
      NoiseAccounts(data, final);
    } else {
      var m := Find(data).value;
      FindMeans(data, 0);
      AtShifts(data, m, m);
      FrameAccounts(data[m..], final);
      ParseToMarker(data, m, final);
      AccountsUpTo(data, m, Tokens(ParseFrame(data[m..], final).0), ParseFrame(data[m..], final).1);
    }
  }

  lemma AccountsUpTo(data: seq<byte>, m: nat, later: seq<Token>, kept: seq<byte>)
    requires m <= |data| && data[m..] == Wires(later) + kept
    ensures data == Wires(Strays(data[..m]) + later) + kept
  {
    WiresConcat(Strays(data[..m]), later);
    WiresOfStrays(data[..m]);
    Assoc(data[..m], Wires(later), kept);
    assert data == data[..m] + data[m..];
  }

  lemma NoiseAccounts(data: seq<byte>, final: bool)
    requires data != [] && Find(data).None?
    ensures data == Wires(Tokens(Parse(data, final).0)) + Parse(data, final).1
    ensures final ==> Parse(data, final).1 == []
  {
    if final {
      LastNoise(data);
      WiresOfStrays(data);
    } else {
      var n := |data| - LongestPartial(data);
      NoiseReport(data);
      WiresOfStrays(data[..n]);
    }
  }

  lemma {:induction false} FrameAccounts(rest: seq<byte>, final: bool)
    requires At(rest, 0)
    ensures rest == Wires(Tokens(ParseFrame(rest, final).0)) + ParseFrame(rest, final).1
    ensures final ==> ParseFrame(rest, final).1 == []
    decreases |rest|, 0
  {
    match NewlineFrom(rest, |PREFIX|)
    case None =>
      OneToken(CutFrame(rest));
      WiresOfOne(Dropped(rest));
    case Some(q) =>
      ParseAccounts(rest[q + 1..], final);
      FrameFirst(rest, final, q);
      FrameWire(rest, q, Tokens(Parse(rest[q + 1..], final).0), Parse(rest[q + 1..], final).1);
  }

  lemma FrameWire(rest: seq<byte>, q: nat, later: seq<Token>, kept: seq<byte>)
    requires At(rest, 0) && |PREFIX| <= q < |rest| && rest[q] == NEWLINE && rest[q + 1..] == Wires(later) + kept
    ensures rest == Wires([Dispatch(rest[|PREFIX|..q])] + later) + kept
  {
    var frame := Dispatch(rest[|PREFIX|..q]);
    WiresConcat([frame], later);
    WiresOfOne(frame);
    FrameBytes(rest, q);
    Assoc(Wire(frame), Wires(later), kept);
  }

  lemma FrameBytes(rest: seq<byte>, q: nat)
    requires At(rest, 0) && |PREFIX| <= q < |rest| && rest[q] == NEWLINE
    ensures rest == Wire(Dispatch(rest[|PREFIX|..q])) + rest[q + 1..]
  {
    assert rest == rest[0..|PREFIX|] + rest[|PREFIX|..q] + [rest[q]] + rest[q + 1..];
  }

  /** However the stream is cut, what is dispatched, logged and dropped is the stream, byte for byte. */
  lemma NothingIsLost(chunks: seq<seq<byte>>)
    ensures Wires(Tokens(Drained(chunks, []))) == Joined(chunks)
  {
    ChunksDoNotMatter(chunks, []);
    assert [] + Joined(chunks) == Joined(chunks);
    ParseAccounts(Joined(chunks), true);
  }

  // -- frames come back ------------------------------------------------------------------

  /** A frame as the helper writes it: the canonical payload between the marker and a newline. */
  function EventFrame(payload: seq<byte>): seq<byte> {
    PREFIX + payload + [NEWLINE]
  }

  /** Stray output, then one event. */
  datatype Segment = Segment(noise: seq<byte>, payload: seq<byte>)

  /** The noise holds no marker; the payload, one line of JSON, no newline. */
  ghost predicate Speakable(segment: Segment) {
    Find(segment.noise).None? && NEWLINE !in segment.payload
  }

  function StreamOf(segments: seq<Segment>, tail: seq<byte>): seq<byte> {
    if segments == [] then tail
    else segments[0].noise + (EventFrame(segments[0].payload) + StreamOf(segments[1..], tail))
  }

  function Heard(segments: seq<Segment>, tail: seq<byte>): seq<Token> {
    if segments == [] then Strays(tail)
    else Strays(segments[0].noise) + ([Dispatch(segments[0].payload)] + Heard(segments[1..], tail))
  }

  lemma MarkedByte(data: seq<byte>, i: nat, k: nat)
    requires k < |PREFIX|
    ensures At(data, i) ==> i + k < |data| && data[i + k] == PREFIX[k]
  {
    assert At(data, i) ==> data[i + k] == data[i..i + |PREFIX|][k];
  }

  /** Two markers cannot overlap: the record separator is nowhere but at the front. */
  lemma MarkersDoNotOverlap(data: seq<byte>, i: nat, j: nat)
    requires At(data, j) && i < j < i + |PREFIX|
    ensures !At(data, i)
  {
    MarkedByte(data, i, j - i);
    MarkedByte(data, j, 0);
  }

  lemma FirstMarkerIsAfterNoise(noise: seq<byte>, rest: seq<byte>)
    requires Find(noise).None? && At(rest, 0)
    ensures Find(noise + rest) == Some(|noise|)
  {
    var all := noise + rest;
    FindMeans(noise, 0);
    assert all[|noise|..|noise| + |PREFIX|] == rest[0..|PREFIX|];
    forall j | 0 <= j < |noise| ensures !At(all, j) {
      if j + |PREFIX| <= |noise| {
        AtGrows(noise, rest, j);
      } else {
        MarkersDoNotOverlap(all, j, |noise|);
      }
    }
    FindIs(all, |noise|);
  }

  lemma {:induction false} NewlineIs(data: seq<byte>, i: nat, q: nat)
    requires i <= q < |data| && data[q] == NEWLINE && forall j :: i <= j < q ==> data[j] != NEWLINE
    ensures NewlineFrom(data, i) == Some(q)
    decreases q - i
  {
    if i < q {
      NewlineIs(data, i + 1, q);
    }
  }

  lemma FrameIsRead(payload: seq<byte>, later: seq<byte>)
    requires NEWLINE !in payload
    ensures var rest := EventFrame(payload) + later;
      && At(rest, 0)
      && Tokens(ParseFrame(rest, true).0) == [Dispatch(payload)] + Tokens(Parse(later, true).0)
  {
    var rest, q := EventFrame(payload) + later, |PREFIX| + |payload|;
    assert rest[0..|PREFIX|] == PREFIX;
    assert rest[|PREFIX|..q] == payload && rest[q] == NEWLINE && rest[q + 1..] == later;
    forall j | |PREFIX| <= j < q ensures rest[j] != NEWLINE {
      assert rest[j] == payload[j - |PREFIX|];
    }
    NewlineIs(rest, |PREFIX|, q);
    FrameFirst(rest, true, q);
  }

  lemma {:induction false} FramesComeBack(segments: seq<Segment>, tail: seq<byte>)
    requires (forall segment <- segments :: Speakable(segment)) && Find(tail).None?
    ensures Tokens(Parse(StreamOf(segments, tail), true).0) == Heard(segments, tail)
    decreases |segments|
  {
    if segments == [] {
      if tail != [] { OneToken(Stray(tail)); }
    } else {
      var first, later := segments[0], StreamOf(segments[1..], tail);
      assert Speakable(first);
      var rest := EventFrame(first.payload) + later;
      FramesComeBack(segments[1..], tail);
      FrameIsRead(first.payload, later);
      FirstMarkerIsAfterNoise(first.noise, rest);
      var all := first.noise + rest;
      assert all[..|first.noise|] == first.noise && all[|first.noise|..] == rest;
      ParseToMarker(all, |first.noise|, true);
    }
  }

  /** Events written between stray output all come back, in order and whole, however the pipe cuts the stream. */
  lemma EventsComeBack(chunks: seq<seq<byte>>, segments: seq<Segment>, tail: seq<byte>)
    requires (forall segment <- segments :: Speakable(segment)) && Find(tail).None?
    requires Joined(chunks) == StreamOf(segments, tail)
    ensures Tokens(Drained(chunks, [])) == Heard(segments, tail)
  {
    ChunksDoNotMatter(chunks, []);
    assert [] + Joined(chunks) == Joined(chunks);
    FramesComeBack(segments, tail);
  }

  // -- the framing itself ----------------------------------------------------------------

  /** `tokens` frame `data`, read from the left: where a marker starts there is a frame up to the next newline, or, without
      one, a frame cut off by the end; a byte where no marker starts is stray. */
  ghost predicate Framing(data: seq<byte>, tokens: seq<Token>)
    decreases |tokens|
  {
    if tokens == [] then data == []
    else
      match tokens[0]
      case StrayByte(b) => data != [] && data[0] == b && !StartsMarked(data) && Framing(data[1..], tokens[1..])
      case Dispatch(payload) =>
        && PREFIX + payload + [10] <= data && 10 !in payload
        && Framing(data[|PREFIX| + |payload| + 1..], tokens[1..])
      case Dropped(bytes) => StartsMarked(data) && bytes == data && 10 !in data[|PREFIX|..] && tokens[1..] == []
  }

  predicate StartsMarked(data: seq<byte>) {
    PREFIX <= data
  }

  lemma AtStart(data: seq<byte>)
    ensures At(data, 0) <==> StartsMarked(data)
  {
    if At(data, 0) {
      assert data[0..|PREFIX|] == PREFIX;
    }
  }

  lemma {:induction false} NewlineIsFirst(data: seq<byte>, i: nat)
    requires i <= |data|
    ensures match NewlineFrom(data, i)
      case Some(q) => forall j :: i <= j < q ==> data[j] != 10
      case None => forall j :: i <= j < |data| ==> data[j] != 10
    decreases |data| - i
  {
    if i < |data| && data[i] != NEWLINE {
      NewlineIsFirst(data, i + 1);
    }
  }

  lemma {:induction false} StraysFrame(data: seq<byte>, m: nat, later: seq<Token>)
    requires m <= |data| && NoMarker(data, 0, m) && Framing(data[m..], later)
    ensures Framing(data, Strays(data[..m]) + later)
    decreases m
  {
    var tokens := Strays(data[..m]) + later;
    if m == 0 {
      assert tokens == later && data[0..] == data;
    } else {
      AtStart(data);
      forall j | 0 <= j < m - 1 ensures !At(data[1..], j) {
        AtShifts(data, 1, j + 1);
      }
      assert data[1..][m - 1..] == data[m..];
      StraysFrame(data[1..], m - 1, later);
      assert tokens[1..] == Strays(data[1..][..m - 1]) + later;
    }
  }

  lemma FrameFrames(data: seq<byte>, q: nat, later: seq<Token>)
    requires At(data, 0) && NewlineFrom(data, |PREFIX|) == Some(q) && Framing(data[q + 1..], later)
    ensures Framing(data, [Dispatch(data[|PREFIX|..q])] + later)
  {
    var payload := data[|PREFIX|..q];
    NewlineIsFirst(data, |PREFIX|);
    AtStart(data);
    assert PREFIX + payload + [10] == data[..q + 1];
    assert ([Dispatch(payload)] + later)[1..] == later;
  }

  lemma {:induction false} ParseFrames(data: seq<byte>)
    ensures Framing(data, Tokens(Parse(data, true).0))
    decreases |data|
  {
    FindMeans(data, 0);
    match Find(data)
    case None =>
      LastNoise(data);
      assert data[|data|..] == [] && data[..|data|] == data && Strays(data) + [] == Strays(data);
      StraysFrame(data, |data|, []);
    case Some(m) =>
      var rest := data[m..];
      ParseToMarker(data, m, true);
      AtShifts(data, m, m);
      AtStart(rest);
      match NewlineFrom(rest, |PREFIX|)
      case None =>
        NewlineIsFirst(rest, |PREFIX|);
        OneToken(CutFrame(rest));
        assert Framing(rest, [Dropped(rest)]);
        StraysFrame(data, m, [Dropped(rest)]);
      case Some(q) =>
        ParseFrames(rest[q + 1..]);
        FrameFirst(rest, true, q);
        FrameFrames(rest, q, Tokens(Parse(rest[q + 1..], true).0));
        StraysFrame(data, m, [Dispatch(rest[|PREFIX|..q])] + Tokens(Parse(rest[q + 1..], true).0));
  }

  /** There is one way only to frame a stream. */
  lemma {:induction false} FramingIsUnique(data: seq<byte>, a: seq<Token>, b: seq<Token>)
    requires Framing(data, a) && Framing(data, b)
    ensures a == b
    decreases |a|
  {
    if a != [] && b != [] {
      FirstTokenIsUnique(data, a, b);
      FramingIsUnique(data[|Wire(a[0])|..], a[1..], b[1..]);
      assert a == [a[0]] + a[1..] && b == [b[0]] + b[1..];
    }
  }

  lemma FirstTokenIsUnique(data: seq<byte>, a: seq<Token>, b: seq<Token>)
    requires a != [] && b != [] && Framing(data, a) && Framing(data, b)
    ensures a[0] == b[0] && |Wire(a[0])| <= |data|
    ensures Framing(data[|Wire(a[0])|..], a[1..]) && Framing(data[|Wire(a[0])|..], b[1..])
  {
    if a[0].Dispatch? {
      DispatchIsMarked(data, a);
    }
    if b[0].Dispatch? {
      DispatchIsMarked(data, b);
    }
    if a[0].Dispatch? && b[0].Dispatch? {
      PayloadIsUnique(data, a[0].payload, b[0].payload);
    }
  }

  lemma DispatchIsMarked(data: seq<byte>, tokens: seq<Token>)
    requires tokens != [] && Framing(data, tokens) && tokens[0].Dispatch?
    ensures StartsMarked(data) && 10 in data[|PREFIX|..]
  {
    var payload := tokens[0].payload;
    var frame := PREFIX + payload + [10];
    assert PREFIX <= frame && frame[|PREFIX| + |payload|] == 10;
    assert data[|PREFIX|..][|payload|] == 10;
  }

  lemma ShorterEndsLonger(data: seq<byte>, p: seq<byte>, q: seq<byte>)
    requires PREFIX + p + [10] <= data && PREFIX + q + [10] <= data && |p| < |q|
    ensures 10 in q
  {
    var f, g := PREFIX + p + [10], PREFIX + q + [10];
    assert q[|p|] == g[|PREFIX| + |p|] == data[|PREFIX| + |p|] == f[|PREFIX| + |p|] == 10;
  }

  lemma PayloadIsUnique(data: seq<byte>, p: seq<byte>, q: seq<byte>)
    requires PREFIX + p + [10] <= data && PREFIX + q + [10] <= data && 10 !in p && 10 !in q
    ensures p == q
  {
    if |p| < |q| {
      ShorterEndsLonger(data, p, q);
    } else if |q| < |p| {
      ShorterEndsLonger(data, q, p);
    } else {
      var f, g := PREFIX + p + [10], PREFIX + q + [10];
      assert forall k :: 0 <= k < |p| ==> p[k] == f[|PREFIX| + k] == data[|PREFIX| + k] == g[|PREFIX| + k] == q[k];
    }
  }

  /** However the stream is cut, what comes of it is its framing, and nothing else is. */
  lemma DrainedIsTheFraming(chunks: seq<seq<byte>>, tokens: seq<Token>)
    ensures Framing(Joined(chunks), tokens) <==> tokens == Tokens(Drained(chunks, []))
  {
    ChunksDoNotMatter(chunks, []);
    assert [] + Joined(chunks) == Joined(chunks);
    ParseFrames(Joined(chunks));
    if Framing(Joined(chunks), tokens) {
      FramingIsUnique(Joined(chunks), tokens, Tokens(Drained(chunks, [])));
    }
  }
}

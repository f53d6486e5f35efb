/** Splitting a batch of tool calls into runs that may go concurrently. */
module ToolBatch {
  import opened Outcomes
  import opened Transcript

  datatype Segment = Segment(concurrent: bool, calls: seq<Block>)

  function CallsOf(segments: seq<Segment>): seq<Block> {
    if segments == [] then [] else CallsOf(segments[..|segments| - 1]) + segments[|segments| - 1].calls
  }

  lemma CallsOfSnoc(segments: seq<Segment>, s: Segment)
    ensures CallsOf(segments + [s]) == CallsOf(segments) + s.calls
  {
    assert (segments + [s])[..|segments|] == segments;
  }

  lemma CallsOfLast(segments: seq<Segment>, calls: seq<Block>)
    requires segments != []
    ensures var n := |segments| - 1;
            CallsOf(segments[n := segments[n].(calls := segments[n].calls + calls)]) == CallsOf(segments) + calls
  {
    var n := |segments| - 1;
    var grown := segments[n := segments[n].(calls := segments[n].calls + calls)];
    assert grown[..n] == segments[..n];
  }

  lemma NextRun(segments: seq<Segment>, i: nat)
    requires i < |segments|
    ensures CallsOf(segments[..i + 1]) == CallsOf(segments[..i]) + segments[i].calls
  {
    var longer := segments[..i + 1];
    assert longer[..i] == segments[..i] && longer[|longer| - 1] == segments[i];
  }

  /** Only calls that may go concurrently share a concurrent run, and such a run has at least `least` of them. */
  predicate Honest(eligible: Block -> bool, segments: seq<Segment>, least: nat) {
    forall i :: 0 <= i < |segments| && segments[i].concurrent ==>
      |segments[i].calls| >= least && forall c :: c in segments[i].calls ==> eligible(c)
  }

  /** Neighbouring runs differ in kind. */
  predicate Maximal(segments: seq<Segment>) {
    forall i :: 0 < i < |segments| ==> segments[i - 1].concurrent != segments[i].concurrent
  }

  predicate NoSequentialPair(segments: seq<Segment>) {
    forall i :: 0 < i < |segments| ==> segments[i - 1].concurrent || segments[i].concurrent
  }

  const MIN_PARALLEL := 2

  /** Runs are of one kind, and not empty. */
  predicate Pure(eligible: Block -> bool, segments: seq<Segment>) {
    forall i :: 0 <= i < |segments| ==>
      segments[i].calls != [] && forall c :: c in segments[i].calls ==> eligible(c) == segments[i].concurrent
  }

  /** No two calls side by side in one run that may go concurrently go one after the other. */
  predicate Eager(eligible: Block -> bool, s: Segment) {
    s.concurrent || forall j :: 0 < j < |s.calls| ==> !(eligible(s.calls[j - 1]) && eligible(s.calls[j]))
  }

  /** Nor do two side by side in neighbouring runs. */
  predicate Parted(eligible: Block -> bool, a: Segment, b: Segment) {
    a.calls != [] && b.calls != [] && !(eligible(a.calls[|a.calls| - 1]) && eligible(b.calls[0]))
  }

  /** Whatever may go concurrently with its neighbour does: the plan misses nothing. */
  predicate Complete(eligible: Block -> bool, segments: seq<Segment>) {
    && (forall i :: 0 <= i < |segments| ==> Eager(eligible, segments[i]))
    && (forall i {:trigger PartedAt(eligible, segments, i)} :: 0 < i < |segments| ==> PartedAt(eligible, segments, i))
  }

  predicate PartedAt(eligible: Block -> bool, segments: seq<Segment>, i: nat)
    requires 0 < i < |segments|
  {
    Parted(eligible, segments[i - 1], segments[i])
  }

  /** A call joins the last run if it is of the same kind, and opens a new one otherwise. */
  method GroupCall(eligible: Block -> bool, segments: seq<Segment>, call: Block) returns (longer: seq<Segment>)
    requires Maximal(segments) && Pure(eligible, segments)
    ensures CallsOf(longer) == CallsOf(segments) + [call] && Maximal(longer) && Pure(eligible, longer)
  {
    var concurrent, n := eligible(call), |segments| - 1;
    if segments != [] && segments[n].concurrent == concurrent {
      CallsOfLast(segments, [call]);
      longer := segments[n := segments[n].(calls := segments[n].calls + [call])];
    } else {
      CallsOfSnoc(segments, Segment(concurrent, [call]));
      longer := segments + [Segment(concurrent, [call])];
    }
  }

  lemma PureIsHonest(eligible: Block -> bool, segments: seq<Segment>)
    requires Pure(eligible, segments)
    ensures Honest(eligible, segments, 1)
  {
  }

  method GroupRuns(eligible: Block -> bool, calls: seq<Block>) returns (segments: seq<Segment>)
    ensures CallsOf(segments) == calls && Honest(eligible, segments, 1) && Maximal(segments) && Pure(eligible, segments)
  {
    segments := [];
    var i := 0;
    while i < |calls|
      invariant 0 <= i <= |calls|
      invariant CallsOf(segments) == calls[..i]
      invariant Maximal(segments) && Pure(eligible, segments)
    {
      assert calls[..i + 1] == calls[..i] + [calls[i]];
      segments := GroupCall(eligible, segments, calls[i]);
      i := i + 1;
    }
    assert calls[..i] == calls;
    PureIsHonest(eligible, segments);
  }

  /** A run joins the last one if both are sequential. */
  function Added(merged: seq<Segment>, s: Segment): seq<Segment> {
    var n := |merged| - 1;
    if merged != [] && !merged[n].concurrent && !s.concurrent
    then merged[n := merged[n].(calls := merged[n].calls + s.calls)] else merged + [s]
  }

  /** What a plan must be: honest, without two sequential runs side by side, and missing nothing. */
  predicate Planned(eligible: Block -> bool, segments: seq<Segment>) {
    Honest(eligible, segments, MIN_PARALLEL) && NoSequentialPair(segments) && Complete(eligible, segments)
  }

  lemma AddedIsPlanned(eligible: Block -> bool, merged: seq<Segment>, s: Segment)
    requires Planned(eligible, merged)
    requires s.concurrent ==> |s.calls| >= MIN_PARALLEL && forall c :: c in s.calls ==> eligible(c)
    requires Eager(eligible, s) && s.calls != [] && (merged != [] ==> Parted(eligible, merged[|merged| - 1], s))
    ensures Planned(eligible, Added(merged, s)) && CallsOf(Added(merged, s)) == CallsOf(merged) + s.calls
    ensures Added(merged, s) != [] && EndsAlike(Added(merged, s)[|Added(merged, s)| - 1], s)
  {
    if merged != [] && !merged[|merged| - 1].concurrent && !s.concurrent {
      CallsOfLast(merged, s.calls);
      JoinIsEager(eligible, merged[|merged| - 1], s);
      JoinedIsComplete(eligible, merged, s);
    } else {
      CallsOfSnoc(merged, s);
      MoreIsComplete(eligible, merged, s);
    }
  }

  /** One run more, behind a plan whose last call it does not belong with. */
  method AddRun(eligible: Block -> bool, merged: seq<Segment>, s: Segment) returns (longer: seq<Segment>)
    requires Planned(eligible, merged)
    requires s.concurrent ==> |s.calls| >= MIN_PARALLEL && forall c :: c in s.calls ==> eligible(c)
    requires Eager(eligible, s) && s.calls != [] && (merged != [] ==> Parted(eligible, merged[|merged| - 1], s))
    ensures CallsOf(longer) == CallsOf(merged) + s.calls
    ensures Planned(eligible, longer)
    ensures longer != [] && EndsAlike(longer[|longer| - 1], s)
  {
    AddedIsPlanned(eligible, merged, s);
    longer := merged;
    var n := |longer| - 1;
    if longer != [] && !longer[n].concurrent && !s.concurrent {
      longer := longer[n := longer[n].(calls := longer[n].calls + s.calls)];
    } else {
      longer := longer + [s];
    }
  }

  lemma MoreIsComplete(eligible: Block -> bool, merged: seq<Segment>, s: Segment)
    requires Complete(eligible, merged) && Eager(eligible, s) && (merged != [] ==> Parted(eligible, merged[|merged| - 1], s))
    ensures Complete(eligible, merged + [s])
  {
    forall i | 0 < i < |merged| + 1 ensures PartedAt(eligible, merged + [s], i) {
      if i < |merged| {
        assert PartedAt(eligible, merged, i);
      }
    }
  }

  lemma JoinIsEager(eligible: Block -> bool, a: Segment, b: Segment)
    requires Eager(eligible, a) && Eager(eligible, b) && Parted(eligible, a, b) && !a.concurrent && !b.concurrent
    ensures Eager(eligible, a.(calls := a.calls + b.calls))
  {
    var calls := a.calls + b.calls;
    forall j | 0 < j < |calls| ensures !(eligible(calls[j - 1]) && eligible(calls[j])) {
      if j > |a.calls| {
        assert calls[j] == b.calls[j - |a.calls|] && calls[j - 1] == b.calls[j - |a.calls| - 1];
      }
    }
  }

  lemma JoinedIsComplete(eligible: Block -> bool, merged: seq<Segment>, s: Segment)
    requires Complete(eligible, merged) && merged != [] && s.calls != [] && merged[|merged| - 1].calls != []
    requires var last := merged[|merged| - 1]; Eager(eligible, last.(calls := last.calls + s.calls))
    ensures var n := |merged| - 1; Complete(eligible, merged[n := merged[n].(calls := merged[n].calls + s.calls)])
  {
    var n := |merged| - 1;
    var longer := merged[n := merged[n].(calls := merged[n].calls + s.calls)];
    forall i | 0 < i < |longer| ensures PartedAt(eligible, longer, i) {
      assert PartedAt(eligible, merged, i);
    }
  }

  lemma RunIsEager(eligible: Block -> bool, s: Segment)
    requires Pure(eligible, [s])
    ensures Eager(eligible, s.(concurrent := s.concurrent && |s.calls| >= MIN_PARALLEL))
  {
    assert forall c :: c in [s][0].calls ==> eligible(c) == s.concurrent;
  }

  /** Every call is planned once, in emission order; a lone eligible call is not worth a pool, and what that
      leaves sequential side by side is one run. Calls that may go concurrently with a neighbour do. */
  method PlanSegments(eligible: Block -> bool, calls: seq<Block>) returns (merged: seq<Segment>)
    ensures CallsOf(merged) == calls
    ensures Honest(eligible, merged, MIN_PARALLEL)
    ensures NoSequentialPair(merged)
    ensures Complete(eligible, merged)
  {
    var segments := GroupRuns(eligible, calls);
    merged := [];
    var i := 0;
    while i < |segments|
      invariant 0 <= i <= |segments|
      invariant CallsOf(merged) == CallsOf(segments[..i])
      invariant Planned(eligible, merged)
      invariant merged != [] <==> i > 0
      invariant i > 0 ==> EndsAlike(merged[|merged| - 1], segments[i - 1])
    {
      var s := segments[i];
      NextRun(segments, i);
      NextRunFits(eligible, segments, i, merged);
      s := s.(concurrent := s.concurrent && |s.calls| >= MIN_PARALLEL);
      merged := AddRun(eligible, merged, s);
      i := i + 1;
    }
    assert segments[..i] == segments;
  }

  /** Both end in the same call. */
  predicate EndsAlike(a: Segment, b: Segment) {
    a.calls != [] && b.calls != [] && a.calls[|a.calls| - 1] == b.calls[|b.calls| - 1]
  }

  lemma NextRunFits(eligible: Block -> bool, segments: seq<Segment>, i: nat, merged: seq<Segment>)
    requires i < |segments| && Pure(eligible, segments) && Maximal(segments)
    requires i > 0 ==> merged != [] && EndsAlike(merged[|merged| - 1], segments[i - 1])
    ensures var s := segments[i].(concurrent := segments[i].concurrent && |segments[i].calls| >= MIN_PARALLEL);
      && s.calls != [] && Eager(eligible, s) && (i > 0 ==> Parted(eligible, merged[|merged| - 1], s))
      && (s.concurrent ==> forall c :: c in s.calls ==> eligible(c))
  {
    RunIsEager(eligible, segments[i]);
    if i > 0 {
      RunsAreParted(eligible, merged[|merged| - 1], segments[i - 1], segments[i]);
    }
  }

  lemma RunsAreParted(eligible: Block -> bool, last: Segment, before: Segment, s: Segment)
    requires Pure(eligible, [before]) && Pure(eligible, [s]) && before.concurrent != s.concurrent && EndsAlike(last, before)
    ensures Parted(eligible, last, s.(concurrent := s.concurrent && |s.calls| >= MIN_PARALLEL))
  {
    assert [before][0] == before && [s][0] == s;
    assert before.calls[|before.calls| - 1] in before.calls && s.calls[0] in s.calls;
  }
}

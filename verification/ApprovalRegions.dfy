/** Uninterrupted regions, as runs: enter, perform every write, release. */
module ApprovalRegions {
  import opened Outcomes
  import opened ExecutionState
  import opened ExecutionJournal
  import opened ApprovalPlans
  import opened ApprovalProtocol

  function PerformAll(w: World, todo: seq<Write>): World
    decreases |todo|
  {
    if todo == [] then w else PerformAll(Perform(w, todo[0]), todo[1..])
  }

  /** The world once the current holder has finished its region. */
  function Complete(w: World): World
    requires w.holder.Some?
  {
    var h := w.holder.value;
    Do(PerformAll(w, h.todo).(holder := Some(h.(todo := []))), Release)
  }

  function Repeat(n: nat): seq<Step> {
    if n == 0 then [] else [WriteNext] + Repeat(n - 1)
  }

  lemma {:induction false} RunConcat(w: World, a: seq<Step>, b: seq<Step>)
    requires Possible(w, a) && Possible(After(w, a), b)
    ensures Possible(w, a + b) && After(w, a + b) == After(After(w, a), b)
    decreases |a|
  {
    if a == [] {
      assert a + b == b;
    } else {
      RunConcat(Do(w, a[0]), a[1..], b);
      assert (a + b)[1..] == a[1..] + b;
    }
  }

  lemma OneStep(w: World, s: Step)
    requires Enabled(w, s)
    ensures Possible(w, [s]) && After(w, [s]) == Do(w, s)
  {
    assert [s][1..] == [];
    assert Possible(Do(w, s), []) && After(Do(w, s), []) == Do(w, s);
  }

  lemma {:induction false} WritesRun(w: World)
    requires w.holder.Some?
    ensures var h := w.holder.value;
            && Possible(w, Repeat(|h.todo|))
            && After(w, Repeat(|h.todo|)) == PerformAll(w, h.todo).(holder := Some(h.(todo := [])))
    decreases |w.holder.value.todo|
  {
    var h := w.holder.value;
    if h.todo == [] {
      assert h.(todo := []) == h;
    } else {
      var w' := Do(w, WriteNext);
      WritesRun(w');
      HolderIsPassive(Perform(w, h.todo[0]), h.todo[1..], w'.holder);
      var run := Repeat(|h.todo|);
      assert run[0] == WriteNext && run[1..] == Repeat(|h.todo| - 1);
    }
  }

  /** Performing writes neither reads nor changes who holds the lock. */
  lemma {:induction false} HolderIsPassive(w: World, todo: seq<Write>, holder: Option<Holder>)
    ensures PerformAll(w.(holder := holder), todo) == PerformAll(w, todo).(holder := holder)
    decreases |todo|
  {
    if todo != [] {
      HolderIsPassive(Perform(w, todo[0]), todo[1..], holder);
    }
  }

  function RegionRun(w: World, s: Step): seq<Step>
    requires Enabled(w, s) && Do(w, s).holder.Some?
  {
    [s] + Repeat(|Do(w, s).holder.value.todo|) + [Release]
  }

  /** A region that is not interrupted is a run of the protocol. */
  lemma RegionIsRun(w: World, s: Step)
    requires Enabled(w, s) && Do(w, s).holder.Some?
    ensures Possible(w, RegionRun(w, s)) && After(w, RegionRun(w, s)) == Complete(Do(w, s))
  {
    var w1 := Do(w, s);
    var writes := Repeat(|w1.holder.value.todo|);
    OneStep(w, s);
    WritesRun(w1);
    RunConcat(w, [s], writes);
    var w2 := After(w1, writes);
    OneStep(w2, Release);
    RunConcat(w, [s] + writes, [Release]);
  }

  /** What an operator's region of one record write comes to. */
  lemma CompleteOne(w: World, x: Write)
    requires w.holder.Some? && w.holder.value == Holder(Operator, [x], Quit) && !x.Append? && !x.Spawn?
    ensures Complete(w) == w.(record := Written(w.record, x), holder := None)
  {
    assert [x][1..] == [];
    assert PerformAll(w, [x]) == Perform(w, x);
  }

  lemma CompleteTwo(w: World, x: Write, y: Write)
    requires w.holder.Some? && w.holder.value == Holder(Operator, [x, y], Quit)
    requires !x.Append? && !x.Spawn? && !y.Append? && !y.Spawn?
    ensures Complete(w) == w.(record := Written(Written(w.record, x), y), holder := None)
  {
    assert [x, y][1..] == [y] && [y][1..] == [];
    var w1 := Perform(w, x);
    assert PerformAll(w1, [y]) == PerformAll(Perform(w1, y), [y][1..]);
    assert PerformAll(w, [x, y]) == PerformAll(w1, [x, y][1..]);
  }

  ghost predicate Reaches(w: World, w': World) {
    exists run :: Possible(w, run) && After(w, run) == w'
  }

  lemma ReachStep(w: World, s: Step)
    requires Enabled(w, s)
    ensures Reaches(w, Do(w, s))
  {
    OneStep(w, s);
  }

  lemma ReachRegion(w: World, s: Step)
    requires Enabled(w, s) && Do(w, s).holder.Some?
    ensures Reaches(w, Complete(Do(w, s)))
  {
    RegionIsRun(w, s);
  }

  lemma ReachTrans(a: World, b: World, c: World)
    requires Reaches(a, b) && Reaches(b, c)
    ensures Reaches(a, c)
  {
    var x :| Possible(a, x) && After(a, x) == b;
    var y :| Possible(b, y) && After(b, y) == c;
    RunConcat(a, x, y);
  }

  lemma PerformAllTwo(w: World, x: Write, y: Write)
    ensures PerformAll(w, [x, y]) == Perform(Perform(w, x), y)
  {
    assert [x, y][1..] == [y] && [y][1..] == [];
    var w1 := Perform(w, x);
    assert PerformAll(w1, [y]) == PerformAll(Perform(w1, y), [y][1..]);
    assert PerformAll(w, [x, y]) == PerformAll(w1, [x, y][1..]);
  }

  lemma {:induction false} PerformAllConcat(w: World, a: seq<Write>, b: seq<Write>)
    ensures PerformAll(w, a + b) == PerformAll(PerformAll(w, a), b)
    decreases |a|
  {
    if a == [] {
      assert a + b == b;
    } else {
      PerformAllConcat(Perform(w, a[0]), a[1..], b);
      assert (a + b)[1..] == a[1..] + b;
    }
  }
}

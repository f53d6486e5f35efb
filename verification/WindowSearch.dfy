/** One-pass searches for the best window over sorted hits, against the definition by all windows. */
module WindowSearch {

  // -- most distinct query terms ----------------------------------------------------------------

  type Term = string

  datatype Hit = Hit(pos: int, term: Term)

  ghost predicate HitAt(hits: seq<Hit>, p: int) {
    exists k | 0 <= k < |hits| :: hits[k].pos == p
  }

  /** The hits are the query's tokens from `i` on, in order. */
  ghost predicate AreHits(query: set<Term>, toks: seq<Term>, i: nat, hits: seq<Hit>) {
    && (forall k | 0 <= k < |hits| :: i <= hits[k].pos < |toks| && hits[k].term == toks[hits[k].pos] && hits[k].term in query)
    && (forall j, k | 0 <= j < k < |hits| :: hits[j].pos < hits[k].pos)
    && (forall p {:trigger HitAt(hits, p)} | i <= p < |toks| && toks[p] in query :: HitAt(hits, p))
  }

  lemma HitsGrow(query: set<Term>, toks: seq<Term>, i: nat, rest: seq<Hit>)
    requires i < |toks| && toks[i] in query && AreHits(query, toks, i + 1, rest)
    ensures AreHits(query, toks, i, [Hit(i, toks[i])] + rest)
  {
    var hits := [Hit(i, toks[i])] + rest;
    forall p | i <= p < |toks| && toks[p] in query ensures HitAt(hits, p) {
      if p == i {
        assert hits[0].pos == p;
      } else {
        assert HitAt(rest, p);
        var k :| 0 <= k < |rest| && rest[k].pos == p;
        assert hits[k + 1].pos == p;
      }
    }
  }

  function HitsFrom(query: set<Term>, toks: seq<Term>, i: nat): (r: seq<Hit>)
    requires i <= |toks|
    ensures AreHits(query, toks, i, r)
    decreases |toks| - i
  {
    if i == |toks| then []
    else if toks[i] in query then
      var rest := HitsFrom(query, toks, i + 1);
      HitsGrow(query, toks, i, rest);
      [Hit(i, toks[i])] + rest
    else HitsFrom(query, toks, i + 1)
  }

  /** The query terms on the tokens a .. a + window. */
  function TermsAt(query: set<Term>, toks: seq<Term>, a: int, window: int): set<Term> {
    set p | 0 <= p < |toks| && a <= p <= a + window && toks[p] in query :: toks[p]
  }

  function Value(distinct: nat, window: int): real
    requires window > 0
  {
    if distinct >= 2 then (distinct * distinct) as real / window as real else 0.0
  }

  lemma MoreIsBetter(a: nat, b: nat, window: int)
    requires a <= b && window > 0
    ensures Value(a, window) <= Value(b, window)
    ensures 0.0 <= Value(b, window)
  {
    assert a * a <= b * b by {
      assert a * a <= a * b <= b * b;
    }
    Divide((a * a) as real, (b * b) as real, window as real);
    Divide(0.0, (b * b) as real, window as real);
  }

  lemma Divide(x: real, y: real, w: real)
    requires x <= y && w > 0.0
    ensures x / w <= y / w
  {
    assert (y - x) / w >= 0.0;
    assert y / w == x / w + (y - x) / w;
  }

  /** The loop keeps the larger value: it is the value of the larger count. */
  lemma LargerValue(a: nat, b: nat, window: int)
    requires window > 0
    ensures var best := if b >= 2 && Value(b, window) > Value(a, window) then Value(b, window) else Value(a, window);
      best == Value(if b > a then b else a, window)
  {
    MoreIsBetter(a, if b > a then b else a, window);
    MoreIsBetter(b, if b > a then b else a, window);
  }

  lemma {:induction false} SubsetIsSmaller(a: set<Term>, b: set<Term>)
    requires a <= b
    ensures |a| <= |b|
    decreases |a|
  {
    if a != {} {
      var x :| x in a;
      SubsetIsSmaller(a - {x}, b - {x});
    }
  }

  /** The terms of the hits lo .. hi - 1, and how often each occurs among them. */
  function TermsOf(hits: seq<Hit>, lo: nat, hi: nat): set<Term>
    requires hi <= |hits|
  {
    set k | lo <= k < hi :: hits[k].term
  }

  function Times(hits: seq<Hit>, lo: nat, hi: nat, term: Term): nat
    requires hi <= |hits|
    decreases hi
  {
    if hi <= lo then 0 else Times(hits, lo, hi - 1, term) + if hits[hi - 1].term == term then 1 else 0
  }

  lemma {:induction false} TimesMeans(hits: seq<Hit>, lo: nat, hi: nat, term: Term)
    requires hi <= |hits|
    ensures Times(hits, lo, hi, term) > 0 <==> term in TermsOf(hits, lo, hi)
    decreases hi
  {
    if hi > lo {
      TimesMeans(hits, lo, hi - 1, term);
    }
  }

  lemma {:induction false} DropFirst(hits: seq<Hit>, lo: nat, hi: nat, term: Term)
    requires lo < hi <= |hits|
    ensures Times(hits, lo, hi, term) == Times(hits, lo + 1, hi, term) + if hits[lo].term == term then 1 else 0
    decreases hi
  {
    if lo + 1 < hi {
      DropFirst(hits, lo, hi - 1, term);
    }
  }

  /** The counter of the loop: terms that occur in the window, with their number. */
  ghost predicate Counts(inwin: map<Term, nat>, hits: seq<Hit>, lo: nat, hi: nat)
    requires hi <= |hits|
  {
    forall term :: (term in inwin <==> Times(hits, lo, hi, term) > 0) && (term in inwin ==> inwin[term] == Times(hits, lo, hi, term))
  }

  lemma CountsAreTerms(inwin: map<Term, nat>, hits: seq<Hit>, lo: nat, hi: nat)
    requires hi <= |hits| && Counts(inwin, hits, lo, hi)
    ensures inwin.Keys == TermsOf(hits, lo, hi)
  {
    forall term ensures term in inwin.Keys <==> term in TermsOf(hits, lo, hi) {
      TimesMeans(hits, lo, hi, term);
    }
  }

  function Add(inwin: map<Term, nat>, term: Term): map<Term, nat> {
    inwin[term := (if term in inwin then inwin[term] else 0) + 1]
  }

  function Remove(inwin: map<Term, nat>, term: Term): map<Term, nat>
    requires term in inwin && inwin[term] > 0
  {
    if inwin[term] == 1 then inwin - {term} else inwin[term := inwin[term] - 1]
  }

  lemma AddCounts(inwin: map<Term, nat>, hits: seq<Hit>, lo: nat, hi: nat)
    requires lo <= hi < |hits| && Counts(inwin, hits, lo, hi)
    ensures Counts(Add(inwin, hits[hi].term), hits, lo, hi + 1)
  {
  }

  lemma RemoveCounts(inwin: map<Term, nat>, hits: seq<Hit>, lo: nat, hi: nat)
    requires lo < hi <= |hits| && Counts(inwin, hits, lo, hi)
    ensures hits[lo].term in inwin && inwin[hits[lo].term] > 0
    ensures Counts(Remove(inwin, hits[lo].term), hits, lo + 1, hi)
  {
    var gone := hits[lo].term;
    DropFirst(hits, lo, hi, gone);
    assert gone in inwin;
    var after := Remove(inwin, gone);
    forall term ensures (term in after <==> Times(hits, lo + 1, hi, term) > 0) && (term in after ==> after[term] == Times(hits, lo + 1, hi, term)) {
      DropFirst(hits, lo, hi, term);
    }
  }

  /** `lo` is the first hit no further than `window` in front of hit `i`. */
  ghost predicate Opens(hits: seq<Hit>, lo: nat, i: nat, window: int)
    requires i < |hits|
  {
    lo <= i && (forall k | 0 <= k < lo :: hits[k].pos < hits[i].pos - window)
    && forall k | lo <= k <= i :: hits[k].pos >= hits[i].pos - window
  }

  /** The window that ends at hit `i` holds exactly the terms the loop counts. */
  lemma WindowOfHit(query: set<Term>, toks: seq<Term>, hits: seq<Hit>, lo: nat, i: nat, window: int)
    requires window > 0 && AreHits(query, toks, 0, hits) && i < |hits| && Opens(hits, lo, i, window)
    ensures TermsAt(query, toks, hits[i].pos - window, window) == TermsOf(hits, lo, i + 1)
  {
    var a := hits[i].pos - window;
    forall p | 0 <= p < |toks| && a <= p <= a + window && toks[p] in query ensures toks[p] in TermsOf(hits, lo, i + 1) {
      assert HitAt(hits, p);
      var k :| 0 <= k < |hits| && hits[k].pos == p;
      assert lo <= k < i + 1;
    }
    forall k | lo <= k < i + 1 ensures hits[k].term in TermsAt(query, toks, a, window) {
      assert toks[hits[k].pos] == hits[k].term;
    }
  }

  lemma LastUpTo(hits: seq<Hit>, k: nat, end: int) returns (i: nat)
    requires k < |hits| && hits[k].pos <= end
    ensures k <= i < |hits| && hits[i].pos <= end && forall m | i < m < |hits| :: hits[m].pos > end
    decreases |hits| - k
  {
    if exists m :: k < m < |hits| && hits[m].pos <= end {
      var m :| k < m < |hits| && hits[m].pos <= end;
      i := LastUpTo(hits, m, end);
    } else {
      i := k;
    }
  }

  /** Every window holds no more than the one that ends at its last hit. */
  lemma LastHit(query: set<Term>, toks: seq<Term>, hits: seq<Hit>, a: int, window: int) returns (i: nat)
    requires window > 0 && AreHits(query, toks, 0, hits) && TermsAt(query, toks, a, window) != {}
    ensures i < |hits| && TermsAt(query, toks, a, window) <= TermsAt(query, toks, hits[i].pos - window, window)
  {
    var term :| term in TermsAt(query, toks, a, window);
    var p :| 0 <= p < |toks| && a <= p <= a + window && toks[p] in query && toks[p] == term;
    assert HitAt(hits, p);
    var k :| 0 <= k < |hits| && hits[k].pos == p;
    i := LastUpTo(hits, k, a + window);
    EarlierWindow(query, toks, hits, a, window, i);
  }

  lemma EarlierWindow(query: set<Term>, toks: seq<Term>, hits: seq<Hit>, a: int, window: int, i: nat)
    requires window > 0 && AreHits(query, toks, 0, hits) && i < |hits| && hits[i].pos <= a + window
    requires forall m | i < m < |hits| :: hits[m].pos > a + window
    ensures TermsAt(query, toks, a, window) <= TermsAt(query, toks, hits[i].pos - window, window)
  {
    forall q | 0 <= q < |toks| && a <= q <= a + window && toks[q] in query ensures q <= hits[i].pos {
      assert HitAt(hits, q);
    }
  }

  /** Among the windows that end at the first `i` hits none holds more than `most` terms, and some window holds that many. */
  ghost predicate MostSoFar(query: set<Term>, toks: seq<Term>, hits: seq<Hit>, i: nat, window: int, most: nat)
    requires i <= |hits|
  {
    && (forall k | 0 <= k < i :: |TermsAt(query, toks, hits[k].pos - window, window)| <= most)
    && (most == 0 || exists a :: |TermsAt(query, toks, a, window)| == most)
  }

  lemma MostGrows(query: set<Term>, toks: seq<Term>, hits: seq<Hit>, i: nat, window: int, most: nat, distinct: nat)
    requires i < |hits| && MostSoFar(query, toks, hits, i, window, most)
    requires distinct == |TermsAt(query, toks, hits[i].pos - window, window)|
    ensures MostSoFar(query, toks, hits, i + 1, window, if distinct > most then distinct else most)
  {
  }

  lemma MostOfAll(query: set<Term>, toks: seq<Term>, hits: seq<Hit>, window: int, most: nat, a: int)
    requires window > 0 && AreHits(query, toks, 0, hits) && MostSoFar(query, toks, hits, |hits|, window, most)
    ensures |TermsAt(query, toks, a, window)| <= most
  {
    if TermsAt(query, toks, a, window) != {} {
      var k := LastHit(query, toks, hits, a, window);
      SubsetIsSmaller(TermsAt(query, toks, a, window), TermsAt(query, toks, hits[k].pos - window, window));
    }
  }

  /** What the search promises, given the largest number of terms in a window. */
  lemma BestOfAll(query: set<Term>, toks: seq<Term>, hits: seq<Hit>, window: int, most: nat)
    requires window > 0 && AreHits(query, toks, 0, hits) && MostSoFar(query, toks, hits, |hits|, window, most)
    ensures forall a :: Value(|TermsAt(query, toks, a, window)|, window) <= Value(most, window)
    ensures most == 0 || exists a :: Value(|TermsAt(query, toks, a, window)|, window) == Value(most, window)
  {
    forall a ensures Value(|TermsAt(query, toks, a, window)|, window) <= Value(most, window) {
      MostOfAll(query, toks, hits, window, most, a);
      MoreIsBetter(|TermsAt(query, toks, a, window)|, most, window);
    }
    if most > 0 {
      var a :| |TermsAt(query, toks, a, window)| == most;
      assert Value(|TermsAt(query, toks, a, window)|, window) == Value(most, window);
    }
  }

  lemma FewHits(query: set<Term>, toks: seq<Term>, hits: seq<Hit>, a: int, window: int)
    requires window > 0 && AreHits(query, toks, 0, hits) && |hits| < 2
    ensures |TermsAt(query, toks, a, window)| < 2
  {
    var terms := TermsAt(query, toks, a, window);
    var all := if hits == [] then {} else {hits[0].term};
    forall term | term in terms ensures term in all {
      var p :| 0 <= p < |toks| && a <= p <= a + window && toks[p] in query && toks[p] == term;
      assert HitAt(hits, p);
    }
    SubsetIsSmaller(terms, all);
  }

  /** Moves the left end of the window up to hit `i`. */
  method Shrink(hits: seq<Hit>, start: nat, i: nat, window: int, counter: map<Term, nat>) returns (j: nat, inwin: map<Term, nat>)
    requires window > 0 && start <= i < |hits| && Counts(counter, hits, start, i + 1)
    requires forall k, m | 0 <= k < m < |hits| :: hits[k].pos < hits[m].pos
    requires forall k | 0 <= k < start :: hits[k].pos < hits[i].pos - window
    ensures Opens(hits, j, i, window) && Counts(inwin, hits, j, i + 1)
  {
    j, inwin := start, counter;
    while hits[j].pos < hits[i].pos - window
      invariant j <= i && Counts(inwin, hits, j, i + 1)
      invariant forall k | 0 <= k < j :: hits[k].pos < hits[i].pos - window
      decreases i - j
    {
      RemoveCounts(inwin, hits, j, i + 1);
      inwin := Remove(inwin, hits[j].term);
      j := j + 1;
    }
  }

  /** Counts the distinct terms in the window that ends at hit `i`. */
  method Slide(query: set<Term>, toks: seq<Term>, hits: seq<Hit>, start: nat, i: nat, window: int, counter: map<Term, nat>)
    returns (j: nat, inwin: map<Term, nat>)
    requires window > 0 && AreHits(query, toks, 0, hits) && start <= i < |hits| && Counts(counter, hits, start, i)
    requires Behind(hits, start, i, window)
    ensures Opens(hits, j, i, window) && Behind(hits, j, i + 1, window) && Counts(inwin, hits, j, i + 1)
    ensures |inwin| == |TermsAt(query, toks, hits[i].pos - window, window)|
  {
    AddCounts(counter, hits, start, i);
    j, inwin := Shrink(hits, start, i, window, Add(counter, hits[i].term));
    CountsAreTerms(inwin, hits, j, i + 1);
    WindowOfHit(query, toks, hits, j, i, window);
    assert |inwin| == |inwin.Keys|;
  }

  /** The one-pass search: the best value of any window of the text, or zero when no window holds two query terms. */
  method SpanBonus(query: set<Term>, toks: seq<Term>, window: int) returns (best: real)
    requires window > 0
    ensures forall a :: Value(|TermsAt(query, toks, a, window)|, window) <= best
    ensures best == 0.0 || exists a :: Value(|TermsAt(query, toks, a, window)|, window) == best
  {
    var hits := HitsFrom(query, toks, 0);
    if |hits| < 2 {
      forall a ensures Value(|TermsAt(query, toks, a, window)|, window) <= 0.0 {
        FewHits(query, toks, hits, a, window);
      }
      return 0.0;
    }
    ghost var most: nat;
    best, most := Scan(query, toks, hits, window);
    BestOfAll(query, toks, hits, window, most);
  }

  method Larger(best: real, ghost most: nat, distinct: nat, window: int) returns (larger: real)
    requires window > 0 && best == Value(most, window)
    ensures larger == Value(if distinct > most then distinct else most, window)
  {
    LargerValue(most, distinct, window);
    larger := if distinct >= 2 && Value(distinct, window) > best then Value(distinct, window) else best;
  }

  ghost predicate Behind(hits: seq<Hit>, j: nat, i: nat, window: int) {
    j <= i <= |hits| && forall k | 0 <= k < j && i < |hits| :: hits[k].pos < hits[i].pos - window
  }

  method Scan(query: set<Term>, toks: seq<Term>, hits: seq<Hit>, window: int) returns (best: real, ghost most: nat)
    requires window > 0 && AreHits(query, toks, 0, hits)
    ensures MostSoFar(query, toks, hits, |hits|, window, most) && best == Value(most, window)
  {
    var j, i := 0, 0;
    var inwin: map<Term, nat> := map[];
    best, most := 0.0, 0;
    while i < |hits|
      invariant Behind(hits, j, i, window) && Counts(inwin, hits, j, i)
      invariant MostSoFar(query, toks, hits, i, window, most)
      invariant best == Value(most, window)
    {
      j, inwin := Slide(query, toks, hits, j, i, window, inwin);
      var distinct := |inwin|;
      MostGrows(query, toks, hits, i, window, most, distinct);
      best := Larger(best, most, distinct, window);
      most := if distinct > most then distinct else most;
      i := i + 1;
    }
  }

  // -- most occurrences -------------------------------------------------------------------------------

  ghost predicate Sorted(ps: seq<int>) {
    forall j, k | 0 <= j < k < |ps| :: ps[j] <= ps[k]
  }

  /** How many positions lie in the closed interval a .. a + window. */
  function Within(ps: seq<int>, a: int, window: int): nat {
    if ps == [] then 0 else (if a <= ps[0] <= a + window then 1 else 0) + Within(ps[1..], a, window)
  }

  lemma {:induction false} WithinConcat(x: seq<int>, y: seq<int>, a: int, window: int)
    ensures Within(x + y, a, window) == Within(x, a, window) + Within(y, a, window)
    decreases |x|
  {
    if x == [] {
      assert x + y == y;
    } else {
      assert (x + y)[1..] == x[1..] + y;
      WithinConcat(x[1..], y, a, window);
    }
  }

  lemma {:induction false} AllWithin(ps: seq<int>, a: int, window: int)
    requires forall k | 0 <= k < |ps| :: a <= ps[k] <= a + window
    ensures Within(ps, a, window) == |ps|
    decreases |ps|
  {
    if ps != [] {
      AllWithin(ps[1..], a, window);
    }
  }

  lemma {:induction false} NoneWithin(ps: seq<int>, a: int, window: int)
    requires forall k | 0 <= k < |ps| :: !(a <= ps[k] <= a + window)
    ensures Within(ps, a, window) == 0
    decreases |ps|
  {
    if ps != [] {
      NoneWithin(ps[1..], a, window);
    }
  }

  /** In sorted positions, an interval holds a run of consecutive ones. */
  lemma Run(ps: seq<int>, j: nat, i: nat, a: int, window: int)
    requires j <= i <= |ps|
    requires forall k | 0 <= k < j :: ps[k] < a
    requires forall k | j <= k < i :: a <= ps[k] <= a + window
    requires forall k | i <= k < |ps| :: ps[k] > a + window
    ensures Within(ps, a, window) == i - j
  {
    assert ps == ps[..j] + (ps[j..i] + ps[i..]);
    WithinConcat(ps[..j], ps[j..i] + ps[i..], a, window);
    WithinConcat(ps[j..i], ps[i..], a, window);
    NoneWithin(ps[..j], a, window);
    AllWithin(ps[j..i], a, window);
    NoneWithin(ps[i..], a, window);
  }

  /** The ends of the run an interval holds. */
  lemma RunOf(ps: seq<int>, a: int, window: int) returns (j: nat, i: nat)
    requires Sorted(ps) && window >= 0
    ensures j <= i <= |ps| && Within(ps, a, window) == i - j
    ensures forall k | 0 <= k < j :: ps[k] < a
    ensures forall k | j <= k < i :: a <= ps[k] <= a + window
    ensures forall k | i <= k < |ps| :: ps[k] > a + window
  {
    j := 0;
    while j < |ps| && ps[j] < a
      invariant j <= |ps| && forall k | 0 <= k < j :: ps[k] < a
    {
      j := j + 1;
    }
    i := j;
    while i < |ps| && ps[i] <= a + window
      invariant j <= i <= |ps| && forall k | j <= k < i :: a <= ps[k] <= a + window
    {
      i := i + 1;
    }
    Run(ps, j, i, a, window);
  }

  /** `j` is the first position no further than `window` in front of position `i`. */
  ghost predicate Reaches(ps: seq<int>, j: nat, i: nat, window: int)
    requires i < |ps|
  {
    j <= i && (forall k | 0 <= k < j :: ps[k] < ps[i] - window) && forall k | j <= k <= i :: ps[k] >= ps[i] - window
  }

  /** Among the first `i` positions, no run that fits the window is longer than `most`, and the first of length `most` is at `at`. */
  ghost predicate LongestRun(ps: seq<int>, i: nat, window: int, at: nat, most: nat)
    requires i <= |ps|
  {
    && most >= 1 && at + most <= i && ps[at + most - 1] <= ps[at] + window
    && (forall k, m | 0 <= m <= k < i && ps[m] >= ps[k] - window :: k - m + 1 <= most && (k - m + 1 == most ==> at <= m))
  }

  lemma RunGrows(ps: seq<int>, i: nat, window: int, at: nat, most: nat, j: nat)
    requires i < |ps| && LongestRun(ps, i, window, at, most) && Reaches(ps, j, i, window)
    ensures if i - j + 1 > most then LongestRun(ps, i + 1, window, j, i - j + 1) else LongestRun(ps, i + 1, window, at, most)
  {
    forall m | 0 <= m <= i && ps[m] >= ps[i] - window ensures j <= m {
    }
  }

  /** Moves the left end of the window up to position `i`. */
  method Advance(ps: seq<int>, start: nat, i: nat, window: int) returns (j: nat)
    requires Sorted(ps) && window >= 0 && start <= i < |ps| && forall k | 0 <= k < start :: ps[k] < ps[i] - window
    ensures Reaches(ps, j, i, window)
  {
    j := start;
    while ps[j] < ps[i] - window
      invariant j <= i && forall k | 0 <= k < j :: ps[k] < ps[i] - window
      decreases i - j
    {
      j := j + 1;
    }
  }

  /** The densest window, and the first occurrence that starts one. */
  method BestWindow(ps: seq<int>, window: int) returns (bestStart: int, bestN: nat)
    requires ps != [] && Sorted(ps) && window >= 0
    ensures forall a :: Within(ps, a, window) <= bestN
    ensures bestStart in ps && Within(ps, bestStart, window) == bestN
    ensures forall p | p in ps && Within(ps, p, window) == bestN :: bestStart <= p
  {
    bestStart, bestN := ps[0], 1;
    var j, i := 0, 0;
    ghost var at: nat := 0;
    while i < |ps|
      invariant 0 <= j <= i <= |ps| && at < |ps| && bestStart == ps[at]
      invariant forall k | 0 <= k < j && i < |ps| :: ps[k] < ps[i] - window
      invariant if i == 0 then at == 0 && bestN == 1 else LongestRun(ps, i, window, at, bestN)
    {
      j := Advance(ps, j, i, window);
      if i > 0 {
        RunGrows(ps, i, window, at, bestN, j);
      }
      if i - j + 1 > bestN {
        bestN, bestStart := i - j + 1, ps[j];
        at := j;
      }
      i := i + 1;
    }
    Densest(ps, window, at, bestN);
  }

  /** Runs of positions stand for intervals: a longest run, and the first of those, is a densest window, and the first. */
  lemma Densest(ps: seq<int>, window: int, at: nat, most: nat)
    requires Sorted(ps) && window >= 0 && LongestRun(ps, |ps|, window, at, most)
    ensures forall a :: Within(ps, a, window) <= most
    ensures Within(ps, ps[at], window) == most
    ensures forall p | p in ps && Within(ps, p, window) == most :: ps[at] <= p
  {
    forall a ensures Within(ps, a, window) <= most {
      BoundedByRuns(ps, a, window, at, most);
    }
    var first, end := RunOf(ps, ps[at], window);
    assert first <= at && at + most <= end;
    forall p | p in ps && Within(ps, p, window) == most ensures ps[at] <= p {
      NoEarlierStart(ps, window, at, most, p);
    }
  }

  lemma NoEarlierStart(ps: seq<int>, window: int, at: nat, most: nat, p: int)
    requires Sorted(ps) && window >= 0 && LongestRun(ps, |ps|, window, at, most) && p in ps && Within(ps, p, window) == most
    ensures ps[at] <= p
  {
    var lo, hi := RunOf(ps, p, window);
    assert ps[lo] >= ps[hi - 1] - window && hi - 1 - lo + 1 == most;
    var k :| 0 <= k < |ps| && ps[k] == p;
    assert lo <= k && at <= lo;
  }

  lemma BoundedByRuns(ps: seq<int>, a: int, window: int, at: nat, most: nat)
    requires Sorted(ps) && window >= 0 && LongestRun(ps, |ps|, window, at, most)
    ensures Within(ps, a, window) <= most
  {
    var j, i := RunOf(ps, a, window);
    if j < i {
      assert ps[j] >= ps[i - 1] - window;
    }
  }
}

/** Sliding-window detection of repeated states and tool calls (syncinerary/harness/loop_detector.py). */
module LoopDetection {
  import opened Schedule
  import opened Sums

  /** A canonical fingerprint. */
  type Print = nat

  /** The last `w` observations. */
  function Window(history: seq<Print>, w: nat): (r: seq<Print>)
    ensures |r| == if |history| < w then |history| else w
  {
    if |history| <= w then history else history[|history| - w..]
  }

  function Count(s: seq<Print>, x: Print): nat { multiset(s)[x] }

  /** The newest observation fills its window with `threshold` copies of itself. */
  predicate Fires(history: seq<Print>, w: nat, threshold: nat)
  {
    history != [] && Count(Window(history, w), history[|history| - 1]) >= threshold
  }

  /** No observation of the run made the detector fire. */
  ghost predicate Quiet(history: seq<Print>, w: nat, threshold: nat)
  {
    forall n | 0 < n <= |history| :: !Fires(history[..n], w, threshold)
  }

  class LoopDetector {
    const windowSize: nat
    const repeatThreshold: nat
    const toolRepeatThreshold: nat
    var stateHashes: seq<Print>
    var toolHashes: seq<Print>
    /** Everything observed since the run began. */
    ghost var states: seq<Print>
    ghost var tools: seq<Print>

    ghost predicate Valid()
      reads this
    {
      && 1 <= repeatThreshold <= windowSize && 1 <= toolRepeatThreshold <= windowSize
      && stateHashes == Window(states, windowSize) && toolHashes == Window(tools, windowSize)
    }

    constructor (windowSize: nat, repeatThreshold: nat, toolRepeatThreshold: nat)
      requires 1 <= repeatThreshold <= windowSize && 1 <= toolRepeatThreshold <= windowSize
      ensures Valid() && states == [] && tools == []
      ensures this.windowSize == windowSize && this.repeatThreshold == repeatThreshold
      ensures this.toolRepeatThreshold == toolRepeatThreshold
    {
      this.windowSize, this.repeatThreshold, this.toolRepeatThreshold := windowSize, repeatThreshold, toolRepeatThreshold;
      stateHashes, toolHashes, states, tools := [], [], [], [];
    }

    method ObserveState(fingerprint: Print) returns (noProgress: bool)
      requires Valid()
      modifies this
      ensures Valid() && states == old(states) + [fingerprint] && tools == old(tools)
      ensures noProgress <==> Fires(states, windowSize, repeatThreshold)
    {
      states := states + [fingerprint];
      stateHashes := Append(stateHashes, fingerprint, windowSize);
      noProgress := Count(stateHashes, fingerprint) >= repeatThreshold;
    }

    method ObserveTool(fingerprint: Print) returns (cycle: bool)
      requires Valid()
      modifies this
      ensures Valid() && tools == old(tools) + [fingerprint] && states == old(states)
      ensures cycle <==> Fires(tools, windowSize, toolRepeatThreshold)
    {
      tools := tools + [fingerprint];
      toolHashes := Append(toolHashes, fingerprint, windowSize);
      cycle := Count(toolHashes, fingerprint) >= toolRepeatThreshold;
    }
  }

  /** A bounded deque drops its oldest entry when it is full. */
  function Append(s: seq<Print>, x: Print, w: nat): seq<Print>
  {
    if |s| < w then s + [x] else if s == [] then [] else s[1..] + [x]
  }

  /** Thresholds the detector refuses. */
  predicate Acceptable(windowSize: int, repeatThreshold: int, toolRepeatThreshold: Option<int>)
  {
    var tool := if toolRepeatThreshold.Some? then toolRepeatThreshold.value else repeatThreshold;
    Min(windowSize, Min(repeatThreshold, tool)) >= 1 && windowSize >= Max(repeatThreshold, tool)
  }

  method MakeDetector(windowSize: int, repeatThreshold: int, toolRepeatThreshold: Option<int>) returns (r: Option<LoopDetector>)
    ensures r.Some? <==> Acceptable(windowSize, repeatThreshold, toolRepeatThreshold)
    ensures r.Some? ==> fresh(r.value) && r.value.Valid() && r.value.states == [] && r.value.tools == []
    ensures r.Some? ==> r.value.windowSize == windowSize && r.value.repeatThreshold == repeatThreshold
    ensures r.Some? && toolRepeatThreshold == None ==> r.value.toolRepeatThreshold == repeatThreshold
    ensures r.Some? && toolRepeatThreshold.Some? ==> r.value.toolRepeatThreshold == toolRepeatThreshold.value
  {
    var tool := if toolRepeatThreshold.Some? then toolRepeatThreshold.value else repeatThreshold;
    if Min(windowSize, Min(repeatThreshold, tool)) < 1 || windowSize < Max(repeatThreshold, tool) {
      return None;
    }
    var detector := new LoopDetector(windowSize, repeatThreshold, tool);
    r := Some(detector);
  }

  // ----- what a run without an alarm looks like -----

  lemma CountSplit(s: seq<Print>, t: seq<Print>, x: Print)
    ensures Count(s + t, x) == Count(s, x) + Count(t, x)
  {
  }

  lemma QuietPrefix(history: seq<Print>, w: nat, threshold: nat, n: nat)
    requires Quiet(history, w, threshold) && n <= |history|
    ensures Quiet(history[..n], w, threshold)
  {
    var cut := history[..n];
    forall k | 0 < k <= |cut| ensures !Fires(cut[..k], w, threshold) {
      assert cut[..k] == history[..k];
    }
  }

  /** The copies of `x` in a window are those in the window that ends at its last copy. */
  lemma {:induction false} WindowOfLastCopy(history: seq<Print>, w: nat, threshold: nat, x: Print)
    requires Quiet(history, w, threshold) && threshold >= 1
    ensures Count(Window(history, w), x) < threshold
  {
    if history == [] {
    } else {
      var n := |history| - 1;
      var before := history[..n];
      assert history == before + [history[n]];
      if history[n] == x {
        assert history[..|history|] == history;
        assert !Fires(history[..|history|], w, threshold);
      } else {
        QuietPrefix(history, w, threshold, n);
        WindowOfLastCopy(before, w, threshold, x);
        WindowShifts(before, history[n], w, x);
      }
    }
  }

  lemma WindowShifts(before: seq<Print>, last: Print, w: nat, x: Print)
    requires last != x
    ensures Count(Window(before + [last], w), x) <= Count(Window(before, w), x)
  {
    var was, now := Window(before, w), Window(before + [last], w);
    if |before| < w {
      assert now == was + [last];
    } else if w > 0 {
      assert now == was[1..] + [last];
      assert was == [was[0]] + was[1..];
    }
  }

  /** A run stays quiet exactly when no window of it, wherever it ends, holds `threshold` copies of
      anything. */
  lemma QuietIffNeverCrowded(history: seq<Print>, w: nat, threshold: nat)
    requires threshold >= 1
    ensures Quiet(history, w, threshold) <==> NeverCrowded(history, w, threshold)
  {
    if Quiet(history, w, threshold) {
      QuietIsNeverCrowded(history, w, threshold);
    }
    if NeverCrowded(history, w, threshold) {
      NeverCrowdedIsQuiet(history, w, threshold);
    }
  }

  ghost predicate NeverCrowded(history: seq<Print>, w: nat, threshold: nat)
  {
    forall n, x | 0 <= n <= |history| :: Count(Window(history[..n], w), x) < threshold
  }

  lemma QuietIsNeverCrowded(history: seq<Print>, w: nat, threshold: nat)
    requires threshold >= 1 && Quiet(history, w, threshold)
    ensures NeverCrowded(history, w, threshold)
  {
    forall n, x | 0 <= n <= |history| ensures Count(Window(history[..n], w), x) < threshold {
      QuietPrefix(history, w, threshold, n);
      WindowOfLastCopy(history[..n], w, threshold, x);
    }
  }

  lemma NeverCrowdedIsQuiet(history: seq<Print>, w: nat, threshold: nat)
    requires NeverCrowded(history, w, threshold)
    ensures Quiet(history, w, threshold)
  {
    forall n | 0 < n <= |history| ensures !Fires(history[..n], w, threshold) {
      var cut := history[..n];
      assert Count(Window(cut, w), cut[n - 1]) < threshold;
    }
  }

  // ----- how long a run can stay quiet -----

  /** At most `limit` copies of each of the values make at most `limit` times as many entries. */
  lemma {:induction false} Pigeonhole(s: seq<Print>, values: set<Print>, limit: nat)
    requires forall x | x in s :: x in values
    requires forall x | x in values :: Count(s, x) <= limit
    ensures |s| <= |values| * limit
    decreases values
  {
    if s == [] {
    } else {
      var x := s[0];
      assert x in values;
      var t := WithoutValue(s, x);
      forall y | y in values - {x} ensures Count(t, y) <= limit {
        assert Count(s, y) <= limit;
      }
      Pigeonhole(t, values - {x}, limit);
      assert (|values| - 1) * limit + limit == |values| * limit;
    }
  }

  lemma {:induction false} WithoutValue(s: seq<Print>, x: Print) returns (t: seq<Print>)
    ensures |t| + Count(s, x) == |s|
    ensures forall y | y in t :: y in s && y != x
    ensures forall y | y != x :: Count(t, y) == Count(s, y)
  {
    if s == [] {
      t := [];
    } else {
      assert s == [s[0]] + s[1..];
      var rest := WithoutValue(s[1..], x);
      t := if s[0] == x then rest else [s[0]] + rest;
      forall y | y != x ensures Count(t, y) == Count(s, y) {
        CountSplit([s[0]], s[1..], y);
        CountSplit([s[0]], rest, y);
      }
    }
  }

  /** A run over `d` distinct states that all fit a window goes quiet for at most `d` times one less
      than the threshold observations: the next one fires. */
  lemma FewStatesMustFire(history: seq<Print>, states: set<Print>, w: nat, threshold: nat)
    requires threshold >= 1 && forall x | x in history :: x in states
    requires |states| * (threshold - 1) < w && Quiet(history, w, threshold)
    ensures |history| <= |states| * (threshold - 1)
  {
    var most := |states| * (threshold - 1);
    if |history| > most {
      var start := history[..most + 1];
      QuietIsNeverCrowded(history, w, threshold);
      assert Window(start, w) == start;
      forall x | x in states ensures Count(start, x) <= threshold - 1 {
        assert Count(Window(start, w), x) < threshold;
      }
      assert forall x | x in start :: x in history;
      Pigeonhole(start, states, threshold - 1);
    }
  }

  function Copies(x: Print, n: nat): seq<Print> { seq(n, i => x) }

  /** Each of `d` states, `n` times in a row. */
  function Runs(d: nat, n: nat): (r: seq<Print>)
    ensures |r| == d * n
  {
    if d == 0 then [] else
      assert (d - 1) * n + n == d * n;
      Runs(d - 1, n) + Copies(d - 1, n)
  }

  lemma {:induction false} CopiesCount(x: Print, n: nat, y: Print)
    ensures Count(Copies(x, n), y) == if x == y then n else 0
  {
    if n == 0 {
    } else {
      CopiesCount(x, n - 1, y);
      assert Copies(x, n) == Copies(x, n - 1) + [x];
    }
  }

  lemma {:induction false} RunsCount(d: nat, n: nat, y: Print)
    ensures Count(Runs(d, n), y) == if y < d then n else 0
  {
    if d == 0 {
    } else {
      RunsCount(d - 1, n, y);
      CopiesCount(d - 1, n, y);
    }
  }

  /** The bound is tight: a run of exactly that length over `d` states stays quiet in any window. */
  lemma BoundIsTight(d: nat, threshold: nat, w: nat)
    requires threshold >= 1
    ensures |Runs(d, threshold - 1)| == d * (threshold - 1)
    ensures Quiet(Runs(d, threshold - 1), w, threshold)
  {
    var history := Runs(d, threshold - 1);
    forall n | 0 < n <= |history| ensures !Fires(history[..n], w, threshold) {
      var x, cut := history[n - 1], history[..n];
      RunsCount(d, threshold - 1, x);
      assert history == cut + history[n..];
      assert cut == cut[..|cut| - |Window(cut, w)|] + Window(cut, w);
    }
  }

  // ----- when no run is too long -----

  /** States visited in turn, over and over. */
  function Cycle(start: nat, n: nat, d: nat): (r: seq<Print>)
    requires start < d
    ensures |r| == n
    decreases n
  {
    if n == 0 then [] else [start] + Cycle(if start + 1 == d then 0 else start + 1, n - 1, d)
  }

  lemma {:induction false} CycleAt(start: nat, n: nat, d: nat)
    requires start < d && n <= d
    decreases n
    ensures forall i | 0 <= i < n :: Cycle(start, n, d)[i] == if start + i < d then start + i else start + i - d
  {
    if n == 0 {
    } else {
      CycleAt(if start + 1 == d then 0 else start + 1, n - 1, d);
    }
  }

  lemma {:induction false} CycleFrom(start: nat, n: nat, d: nat, k: nat) returns (next: nat)
    requires start < d && k <= n
    ensures next < d && Cycle(start, n, d)[k..] == Cycle(next, n - k, d)
    ensures Cycle(start, n, d)[..k] == Cycle(start, k, d)
    decreases n
  {
    if k == 0 {
      next := start;
    } else {
      var after := if start + 1 == d then 0 else start + 1;
      next := CycleFrom(after, n - 1, d, k - 1);
      assert Cycle(start, n, d)[k..] == Cycle(after, n - 1, d)[k - 1..];
      assert Cycle(start, n, d)[..k] == [start] + Cycle(after, n - 1, d)[..k - 1];
    }
  }

  lemma OneRound(start: nat, n: nat, d: nat, x: Print)
    requires start < d && n <= d
    ensures Count(Cycle(start, n, d), x) <= 1
  {
    var round := Cycle(start, n, d);
    CycleAt(start, n, d);
    DistinctIsSet(round);
    assert x in round <==> x in multiset(round);
  }

  lemma OneRoundLess(n: int, d: nat, m: nat)
    requires n <= d * m && m > 0
    ensures n - d <= d * (m - 1) && 0 <= d * (m - 1)
  {
    assert d * m == d * (m - 1) + d;
  }

  lemma FirstRound(start: nat, n: nat, d: nat, round: nat, x: Print) returns (next: nat)
    requires start < d && round <= d && round <= n
    ensures next < d && Count(Cycle(start, n, d), x) <= 1 + Count(Cycle(next, n - round, d), x)
  {
    next := CycleFrom(start, n, d, round);
    var first, rest := Cycle(start, round, d), Cycle(next, n - round, d);
    assert Cycle(start, n, d) == Cycle(start, n, d)[..round] + Cycle(start, n, d)[round..];
    CountSplit(first, rest, x);
    OneRound(start, round, d, x);
  }

  /** A stretch of at most `m` rounds holds at most `m` copies of each state. */
  lemma {:induction false} CycleCount(start: nat, n: nat, d: nat, m: nat, x: Print)
    requires start < d && n <= d * m
    ensures Count(Cycle(start, n, d), x) <= m
    decreases m
  {
    if m == 0 {
    } else {
      var round := if n <= d then n else d;
      OneRoundLess(n, d, m);
      var next := FirstRound(start, n, d, round, x);
      CycleCount(next, n - round, d, m - 1, x);
    }
  }

  /** The condition of `FewStatesMustFire` is exact: with as many states as the window has room for,
      going round them never fires, however long the run. */
  lemma ManyStatesMayCycle(n: nat, d: nat, w: nat, threshold: nat)
    requires d >= 1 && threshold >= 1 && d * (threshold - 1) >= w
    ensures Quiet(Cycle(0, n, d), w, threshold)
  {
    var history := Cycle(0, n, d);
    forall k | 0 < k <= |history| ensures !Fires(history[..k], w, threshold) {
      var ignored := CycleFrom(0, n, d, k);
      CycleStaysCalm(k, d, w, threshold);
    }
  }

  lemma CycleStaysCalm(k: nat, d: nat, w: nat, threshold: nat)
    requires d >= 1 && threshold >= 1 && d * (threshold - 1) >= w && k > 0
    ensures !Fires(Cycle(0, k, d), w, threshold)
  {
    var history := Cycle(0, k, d);
    var start, size := CycleWindow(k, d, w);
    CycleCount(start, size, d, threshold - 1, history[k - 1]);
  }

  lemma CycleWindow(k: nat, d: nat, w: nat) returns (start: nat, size: nat)
    requires d >= 1
    ensures start < d && size <= w && Window(Cycle(0, k, d), w) == Cycle(start, size, d)
  {
    var history := Cycle(0, k, d);
    size := |Window(history, w)|;
    start := CycleFrom(0, k, d, k - size);
    assert Window(history, w) == history[k - size..];
  }
}

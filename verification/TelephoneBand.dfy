/**
 Trimming and pause compression for synthesized caller speech. The audio is judged in windows, each active or silent;
 a silence between two stretches of speech that is longer than a limit keeps its two ends and loses its middle.
 */
module TelephoneBand {
  import opened Sequences
  import Signals

  /** Lengths in samples: the analysis window, the longest pause left alone, and what a longer one keeps. */
  datatype Shaping = Shaping(window: nat, longerThan: int, keep: nat)

  /** Python's `s[from:to]`: a negative bound counts from the end, and both are cut to the list. */
  function Bound(length: nat, index: int): (r: nat)
    ensures r <= length
  {
    if index < 0 then Max(0, length + index) else if index > length then length else index
  }

  function Slice<T>(s: seq<T>, lo: int, hi: int): seq<T> {
    if Bound(|s|, lo) <= Bound(|s|, hi) then s[Bound(|s|, lo)..Bound(|s|, hi)] else []
  }

  /** How many windows cover `length` samples. */
  function Windows(length: nat, window: nat): nat
    requires window > 0
  {
    (length + window - 1) / window
  }

  function Window<T>(samples: seq<T>, window: nat, w: nat): seq<T> {
    Slice(samples, w * window, (w + 1) * window)
  }

  /** One flag a window, the last of which may be short. */
  function Flags<T>(samples: seq<T>, loud: seq<T> -> bool, window: nat): (flags: seq<bool>)
    requires window > 0
    ensures |flags| == Windows(|samples|, window)
  {
    seq(Windows(|samples|, window), w requires 0 <= w => loud(Window(samples, window, w)))
  }

  /** A window is active when its level, the root of its mean square, is at least the threshold. */
  function Loudness(threshold: real): seq<real> -> bool {
    (chunk: seq<real>) => Signals.Energy(chunk) >= |chunk| as real * (threshold * threshold)
  }

  method ActiveWindows<T>(samples: seq<T>, loud: seq<T> -> bool, window: nat) returns (flags: seq<bool>)
    requires window > 0
    ensures flags == Flags(samples, loud, window)
  {
    flags := [];
    var start := 0;
    while start < |samples|
      invariant start == |flags| * window && |flags| <= Windows(|samples|, window)
      invariant forall w :: 0 <= w < |flags| ==> flags[w] == loud(Window(samples, window, w))
      decreases |samples| - start
    {
      CeilingIs(|samples|, window, |flags|);
      WindowFrom(samples, window, |flags|, start);
      flags := flags + [loud(Slice(samples, start, start + window))];
      start := start + window;
    }
    CeilingIs(|samples|, window, |flags|);
  }

  function StartOf(window: nat, w: nat): nat {
    w * window
  }

  lemma WindowFrom<T>(samples: seq<T>, window: nat, w: nat, start: nat)
    requires start == w * window
    ensures Window(samples, window, w) == Slice(samples, start, start + window)
    ensures start + window == (w + 1) * window
  {
  }

  lemma CeilingIs(length: nat, window: nat, n: nat)
    requires window > 0
    ensures n * window < length ==> n < Windows(length, window)
    ensures n * window >= length ==> n >= Windows(length, window)
  {
    var w := Windows(length, window);
    var r := (length + window - 1) % window;
    assert w * window + r == length + window - 1;
    if n >= w {
      MonotoneProduct(w, n, window);
    } else {
      MonotoneProduct(n + 1, w, window);
      assert (n + 1) * window == n * window + window;
    }
  }

  lemma MonotoneProduct(a: nat, b: nat, k: nat)
    requires a <= b
    ensures a * k <= b * k
  {
  }

  // Where the silent runs are.

  function RunEnd(flags: seq<bool>, w: nat): (r: nat)
    requires w <= |flags|
    ensures w <= r <= |flags| && (r < |flags| ==> flags[r])
    ensures forall i :: w <= i < r ==> !flags[i]
    decreases |flags| - w
  {
    if w == |flags| || flags[w] then w else RunEnd(flags, w + 1)
  }

  function RunStart(flags: seq<bool>, w: nat): (r: nat)
    requires w < |flags| && !flags[w]
    ensures r <= w && (r > 0 ==> flags[r - 1])
    ensures forall i :: r <= i <= w ==> !flags[i]
  {
    if w == 0 || flags[w - 1] then w else RunStart(flags, w - 1)
  }

  /** Every window of a silent run agrees on where it starts and ends. */
  lemma SameRun(flags: seq<bool>, a: nat, w: nat)
    requires a <= |flags| && a <= w < RunEnd(flags, a) && (a > 0 ==> flags[a - 1])
    ensures RunStart(flags, w) == a && RunEnd(flags, w) == RunEnd(flags, a)
  {
  }

  /** The run of silence from window `a` to window `b`, in samples. */
  function PauseEnd(length: nat, shaping: Shaping, b: nat): nat {
    if b * shaping.window < length then b * shaping.window else length
  }

  /** A silent run between two stretches of speech, longer than the limit. */
  predicate Shortened(length: nat, flags: seq<bool>, shaping: Shaping, a: nat, b: nat) {
    a > 0 && b < |flags| && PauseEnd(length, shaping, b) - a * shaping.window > shaping.longerThan
  }

  /** What a silent run becomes. */
  function Pause<T>(samples: seq<T>, flags: seq<bool>, shaping: Shaping, a: nat, b: nat): seq<T> {
    var start, end, head := a * shaping.window, PauseEnd(|samples|, shaping, b), shaping.keep / 2;
    if Shortened(|samples|, flags, shaping, a, b)
    then Slice(samples, start, start + head) + Slice(samples, end - (shaping.keep - head), end)
    else Slice(samples, start, end)
  }

  /** The output from window `index` on. */
  function Compressed<T>(samples: seq<T>, flags: seq<bool>, shaping: Shaping, index: nat): seq<T>
    requires index <= |flags|
    decreases |flags| - index
  {
    if index == |flags| then []
    else if flags[index]
    then Window(samples, shaping.window, index)
         + Compressed(samples, flags, shaping, index + 1)
    else Pause(samples, flags, shaping, index, RunEnd(flags, index))
         + Compressed(samples, flags, shaping, RunEnd(flags, index))
  }

  lemma ActiveStep<T>(samples: seq<T>, flags: seq<bool>, shaping: Shaping, index: nat, shaped: seq<T>)
    requires index < |flags| && flags[index]
    ensures shaped + Compressed(samples, flags, shaping, index)
         == shaped + Window(samples, shaping.window, index) + Compressed(samples, flags, shaping, index + 1)
  {
    Associative(shaped, Window(samples, shaping.window, index), Compressed(samples, flags, shaping, index + 1));
  }

  lemma PauseStep<T>(samples: seq<T>, flags: seq<bool>, shaping: Shaping, index: nat, shaped: seq<T>)
    requires index < |flags| && !flags[index]
    ensures var b := RunEnd(flags, index);
            shaped + Compressed(samples, flags, shaping, index)
            == shaped + Pause(samples, flags, shaping, index, b) + Compressed(samples, flags, shaping, b)
  {
    var b := RunEnd(flags, index);
    Associative(shaped, Pause(samples, flags, shaping, index, b), Compressed(samples, flags, shaping, b));
  }

  method CompressPauses<T>(samples: seq<T>, loud: seq<T> -> bool, shaping: Shaping) returns (shaped: seq<T>)
    requires shaping.window > 0
    ensures shaped == Compressed(samples, Flags(samples, loud, shaping.window), shaping, 0)
  {
    var flags := ActiveWindows(samples, loud, shaping.window);
    shaped := CompressJudged(samples, flags, shaping);
  }

  /** The same, once the windows are judged. */
  method CompressJudged<T>(samples: seq<T>, flags: seq<bool>, shaping: Shaping) returns (shaped: seq<T>)
    ensures shaped == Compressed(samples, flags, shaping, 0)
  {
    shaped := [];
    var index := 0;
    var speechSeen := false;
    while index < |flags|
      invariant index <= |flags|
      invariant index < |flags| && !flags[index] ==> (speechSeen <==> index > 0)
      invariant Compressed(samples, flags, shaping, 0) == shaped + Compressed(samples, flags, shaping, index)
    {
      if flags[index] {
        ActiveStep(samples, flags, shaping, index, shaped);
        shaped := shaped + Window(samples, shaping.window, index);
        speechSeen := true;
        index := index + 1;
      } else {
        var runEnd := FirstActive(flags, index);
        var pause := ShapePause(samples, flags, shaping, index, runEnd, speechSeen);
        PauseStep(samples, flags, shaping, index, shaped);
        shaped := shaped + pause;
        index := runEnd;
      }
    }
  }

  /** One silent run: its two ends if it is a long pause between speech, and otherwise all of it. */
  method ShapePause<T>(samples: seq<T>, flags: seq<bool>, shaping: Shaping, index: nat, runEnd: nat, speechSeen: bool)
    returns (piece: seq<T>)
    requires index < runEnd <= |flags| && (speechSeen <==> index > 0)
    ensures piece == Pause(samples, flags, shaping, index, runEnd)
  {
    var start := index * shaping.window;
    var end := if |samples| < runEnd * shaping.window then |samples| else runEnd * shaping.window;
    var betweenSpeech := speechSeen && runEnd < |flags|;
    assert end == PauseEnd(|samples|, shaping, runEnd);
    if betweenSpeech && end - start > shaping.longerThan {
      var head := shaping.keep / 2;
      piece := Slice(samples, start, start + head);
      piece := piece + Slice(samples, end - (shaping.keep - head), end);
    } else {
      piece := Slice(samples, start, end);
    }
  }

  /** The inner loop: skip over a silent run. */
  method FirstActive(flags: seq<bool>, index: nat) returns (runEnd: nat)
    requires index < |flags|
    ensures runEnd == RunEnd(flags, index)
  {
    runEnd := index;
    while runEnd < |flags| && !flags[runEnd]
      invariant index <= runEnd <= |flags|
      invariant RunEnd(flags, runEnd) == RunEnd(flags, index)
    {
      runEnd := runEnd + 1;
    }
  }

  // What the output is, sample by sample.

  predicate Judged(length: nat, flags: seq<bool>, shaping: Shaping) {
    shaping.window > 0 && |flags| == Windows(length, shaping.window)
  }

  lemma WindowOf(j: nat, window: nat, a: nat, b: nat)
    requires window > 0 && a * window <= j < b * window
    ensures a <= j / window < b
  {
    var q, r := j / window, j % window;
    assert j == q * window + r && (q + 1) * window == q * window + window;
    if q < a {
      MonotoneProduct(q + 1, a, window);
    }
    if q >= b {
      MonotoneProduct(b, q, window);
    }
  }

  lemma WindowInRange(length: nat, window: nat, j: nat)
    requires window > 0 && j < length
    ensures j / window < Windows(length, window)
  {
    assert j / window * window <= j;
    CeilingIs(length, window, j / window);
  }

  /**
   A sample is kept if its window is active, if its silence is not a pause to shorten, or if it is among the
   first `keep / 2` or the last `keep - keep / 2` samples of one.
   */
  predicate Kept(length: nat, flags: seq<bool>, shaping: Shaping, j: nat)
    requires Judged(length, flags, shaping) && j < length
  {
    WindowInRange(length, shaping.window, j);
    var w := j / shaping.window;
    if flags[w] then true
    else
      var a, b := RunStart(flags, w), RunEnd(flags, w);
      || !Shortened(length, flags, shaping, a, b)
      || j < a * shaping.window + shaping.keep / 2
      || j >= PauseEnd(length, shaping, b) - (shaping.keep - shaping.keep / 2)
  }

  /** The kept samples from `lo` up to `hi`, in order. */
  function KeptSamples<T>(samples: seq<T>, flags: seq<bool>, shaping: Shaping, lo: nat, hi: nat): seq<T>
    requires Judged(|samples|, flags, shaping) && lo <= hi <= |samples|
    decreases hi - lo
  {
    if lo == hi then []
    else (if Kept(|samples|, flags, shaping, lo) then [samples[lo]] else [])
         + KeptSamples(samples, flags, shaping, lo + 1, hi)
  }

  lemma {:induction false} KeptSplit<T>(samples: seq<T>, flags: seq<bool>, shaping: Shaping, lo: nat, mid: nat, hi: nat)
    requires Judged(|samples|, flags, shaping) && lo <= mid <= hi <= |samples|
    ensures KeptSamples(samples, flags, shaping, lo, hi)
         == KeptSamples(samples, flags, shaping, lo, mid) + KeptSamples(samples, flags, shaping, mid, hi)
    decreases mid - lo
  {
    if lo < mid {
      KeptSplit(samples, flags, shaping, lo + 1, mid, hi);
      Associative(if Kept(|samples|, flags, shaping, lo) then [samples[lo]] else [],
                  KeptSamples(samples, flags, shaping, lo + 1, mid), KeptSamples(samples, flags, shaping, mid, hi));
    }
  }

  lemma {:induction false} KeptWhole<T>(samples: seq<T>, flags: seq<bool>, shaping: Shaping, lo: nat, hi: nat)
    requires Judged(|samples|, flags, shaping) && lo <= hi <= |samples|
    requires forall j :: lo <= j < hi ==> Kept(|samples|, flags, shaping, j)
    ensures KeptSamples(samples, flags, shaping, lo, hi) == samples[lo..hi]
    decreases hi - lo
  {
    if lo < hi {
      KeptWhole(samples, flags, shaping, lo + 1, hi);
      assert samples[lo..hi] == [samples[lo]] + samples[lo + 1..hi];
    }
  }

  lemma {:induction false} KeptNone<T>(samples: seq<T>, flags: seq<bool>, shaping: Shaping, lo: nat, hi: nat)
    requires Judged(|samples|, flags, shaping) && lo <= hi <= |samples|
    requires forall j :: lo <= j < hi ==> !Kept(|samples|, flags, shaping, j)
    ensures KeptSamples(samples, flags, shaping, lo, hi) == []
    decreases hi - lo
  {
    if lo < hi {
      KeptNone(samples, flags, shaping, lo + 1, hi);
    }
  }

  /** Where window `w` starts, or the end of the samples. */
  lemma Positions(length: nat, flags: seq<bool>, shaping: Shaping, a: nat, b: nat)
    requires Judged(length, flags, shaping) && a < b <= |flags|
    ensures a * shaping.window < length && a * shaping.window <= PauseEnd(length, shaping, b) <= length
    ensures b == |flags| ==> PauseEnd(length, shaping, b) == length
  {
    CeilingIs(length, shaping.window, a);
    CeilingIs(length, shaping.window, b);
    MonotoneProduct(a, b, shaping.window);
  }

  /** The samples of an active window are kept. */
  lemma ActiveKept(length: nat, flags: seq<bool>, shaping: Shaping, w: nat, j: nat)
    requires Judged(length, flags, shaping) && w < |flags| && flags[w]
    requires w * shaping.window <= j < PauseEnd(length, shaping, w + 1)
    ensures j < length && Kept(length, flags, shaping, j)
  {
    Positions(length, flags, shaping, w, w + 1);
    WindowOf(j, shaping.window, w, w + 1);
  }

  /** In a silent run, what is kept depends only on the run's own ends. */
  lemma SilentKept(length: nat, flags: seq<bool>, shaping: Shaping, a: nat, j: nat)
    requires Judged(length, flags, shaping) && a < |flags| && !flags[a] && (a > 0 ==> flags[a - 1])
    requires var b := RunEnd(flags, a); a * shaping.window <= j < PauseEnd(length, shaping, b)
    ensures j < length
    ensures var b := RunEnd(flags, a);
            Kept(length, flags, shaping, j) <==>
              || !Shortened(length, flags, shaping, a, b)
              || j < a * shaping.window + shaping.keep / 2
              || j >= PauseEnd(length, shaping, b) - (shaping.keep - shaping.keep / 2)
  {
    var b := RunEnd(flags, a);
    Positions(length, flags, shaping, a, b);
    WindowOf(j, shaping.window, a, b);
    SameRun(flags, a, j / shaping.window);
  }

  /** How long the shortest pause that is shortened lasts: pauses between speech are whole windows. */
  function ShortestLong(shaping: Shaping): nat
    requires shaping.window > 0
  {
    Max(1, shaping.longerThan / shaping.window + 1) * shaping.window
  }

  /** A multiple above `x` is at least the next multiple after it. */
  lemma NextMultiple(x: int, window: nat, k: int)
    requires window > 0 && k * window > x
    ensures k >= x / window + 1
  {
    assert x / window * window <= x;
    Multiples(k, x / window, window);
  }

  lemma Multiples(a: int, b: int, k: nat)
    ensures a <= b ==> a * k <= b * k
  {
  }

  /** A pause that is shortened lasts at least that long. */
  lemma LongPause(length: nat, flags: seq<bool>, shaping: Shaping, a: nat, b: nat)
    requires Judged(length, flags, shaping) && a < b <= |flags| && Shortened(length, flags, shaping, a, b)
    ensures a * shaping.window + ShortestLong(shaping) <= PauseEnd(length, shaping, b)
  {
    CeilingIs(length, shaping.window, b);
    assert b * shaping.window - a * shaping.window == (b - a) * shaping.window;
    NextMultiple(shaping.longerThan, shaping.window, b - a);
    MonotoneProduct(Max(1, shaping.longerThan / shaping.window + 1), b - a, shaping.window);
  }

  lemma PauseIsKept<T>(samples: seq<T>, flags: seq<bool>, shaping: Shaping, a: nat)
    requires Judged(|samples|, flags, shaping) && shaping.keep <= ShortestLong(shaping)
    requires a < |flags| && !flags[a] && (a > 0 ==> flags[a - 1])
    ensures var b := RunEnd(flags, a);
            && a * shaping.window <= PauseEnd(|samples|, shaping, b) <= |samples|
            && Pause(samples, flags, shaping, a, b)
               == KeptSamples(samples, flags, shaping, a * shaping.window, PauseEnd(|samples|, shaping, b))
  {
    var b := RunEnd(flags, a);
    var start, end, head := a * shaping.window, PauseEnd(|samples|, shaping, b), shaping.keep / 2;
    Positions(|samples|, flags, shaping, a, b);
    forall j | start <= j < end
      ensures Kept(|samples|, flags, shaping, j) <==>
                || !Shortened(|samples|, flags, shaping, a, b) || j < start + head || j >= end - (shaping.keep - head)
    {
      SilentKept(|samples|, flags, shaping, a, j);
    }
    if Shortened(|samples|, flags, shaping, a, b) {
      LongPause(|samples|, flags, shaping, a, b);
      EndsAreKept(samples, flags, shaping, start, start + head, end - (shaping.keep - head), end);
    } else {
      KeptWhole(samples, flags, shaping, start, end);
    }
  }

  lemma EndsAreKept<T>(samples: seq<T>, flags: seq<bool>, shaping: Shaping, start: nat, head: nat, tail: nat, end: nat)
    requires Judged(|samples|, flags, shaping) && start <= head <= tail <= end <= |samples|
    requires forall j :: start <= j < end ==> (Kept(|samples|, flags, shaping, j) <==> j < head || j >= tail)
    ensures KeptSamples(samples, flags, shaping, start, end) == Slice(samples, start, head) + Slice(samples, tail, end)
  {
    KeptWhole(samples, flags, shaping, start, head);
    TailIsKept(samples, flags, shaping, head, tail, end);
    KeptSplit(samples, flags, shaping, start, head, end);
  }

  lemma TailIsKept<T>(samples: seq<T>, flags: seq<bool>, shaping: Shaping, head: nat, tail: nat, end: nat)
    requires Judged(|samples|, flags, shaping) && head <= tail <= end <= |samples|
    requires forall j :: head <= j < end ==> (Kept(|samples|, flags, shaping, j) <==> j >= tail)
    ensures KeptSamples(samples, flags, shaping, head, end) == samples[tail..end]
  {
    KeptNone(samples, flags, shaping, head, tail);
    KeptWhole(samples, flags, shaping, tail, end);
    KeptSplit(samples, flags, shaping, head, tail, end);
    assert [] + samples[tail..end] == samples[tail..end];
  }

  lemma AllActiveKept(length: nat, flags: seq<bool>, shaping: Shaping, w: nat)
    requires Judged(length, flags, shaping) && w < |flags| && flags[w]
    ensures PauseEnd(length, shaping, w + 1) <= length
    ensures forall j :: w * shaping.window <= j < PauseEnd(length, shaping, w + 1) ==> Kept(length, flags, shaping, j)
  {
    Positions(length, flags, shaping, w, w + 1);
    forall j | w * shaping.window <= j < PauseEnd(length, shaping, w + 1) ensures Kept(length, flags, shaping, j) {
      ActiveKept(length, flags, shaping, w, j);
    }
  }

  lemma ActiveSamplesKept<T>(samples: seq<T>, flags: seq<bool>, shaping: Shaping, w: nat, start: nat, end: nat)
    requires Judged(|samples|, flags, shaping) && w < |flags| && flags[w]
    requires start == w * shaping.window <= end == PauseEnd(|samples|, shaping, w + 1)
    ensures end <= |samples| && KeptSamples(samples, flags, shaping, start, end) == samples[start..end]
  {
    AllActiveKept(|samples|, flags, shaping, w);
    KeptWhole(samples, flags, shaping, start, end);
  }

  lemma WindowIsSlice<T>(samples: seq<T>, flags: seq<bool>, shaping: Shaping, w: nat)
    requires Judged(|samples|, flags, shaping) && w < |flags|
    ensures w * shaping.window <= PauseEnd(|samples|, shaping, w + 1) <= |samples|
    ensures Window(samples, shaping.window, w) == samples[w * shaping.window..PauseEnd(|samples|, shaping, w + 1)]
  {
    Positions(|samples|, flags, shaping, w, w + 1);
  }

  lemma WindowIsKept<T>(samples: seq<T>, flags: seq<bool>, shaping: Shaping, w: nat)
    requires Judged(|samples|, flags, shaping) && w < |flags| && flags[w]
    ensures w * shaping.window <= PauseEnd(|samples|, shaping, w + 1) <= |samples|
    ensures Window(samples, shaping.window, w)
         == KeptSamples(samples, flags, shaping, w * shaping.window, PauseEnd(|samples|, shaping, w + 1))
  {
    WindowIsSlice(samples, flags, shaping, w);
    ActiveSamplesKept(samples, flags, shaping, w, StartOf(shaping.window, w), PauseEnd(|samples|, shaping, w + 1));
  }

  /**
   The output is exactly the kept samples, in order: every active window, all silence at either end, every
   short pause whole, and the two ends of each long one.
   */
  lemma {:induction false} CompressedIsWhatIsKept<T>(samples: seq<T>, flags: seq<bool>, shaping: Shaping, index: nat)
    requires Judged(|samples|, flags, shaping) && shaping.keep <= ShortestLong(shaping) && index <= |flags|
    requires index > 0 && index < |flags| && !flags[index] ==> flags[index - 1]
    ensures Compressed(samples, flags, shaping, index)
         == KeptSamples(samples, flags, shaping, PauseEnd(|samples|, shaping, index), |samples|)
    decreases |flags| - index
  {
    if index == |flags| {
      CeilingIs(|samples|, shaping.window, index);
    } else if flags[index] {
      WindowIsKept(samples, flags, shaping, index);
      CompressedIsWhatIsKept(samples, flags, shaping, index + 1);
      KeptFromWindow(samples, flags, shaping, index, index + 1);
    } else {
      PauseIsKept(samples, flags, shaping, index);
      CompressedIsWhatIsKept(samples, flags, shaping, RunEnd(flags, index));
      KeptFromWindow(samples, flags, shaping, index, RunEnd(flags, index));
    }
  }

  lemma KeptFromWindow<T>(samples: seq<T>, flags: seq<bool>, shaping: Shaping, a: nat, b: nat)
    requires Judged(|samples|, flags, shaping) && a < b <= |flags|
    ensures PauseEnd(|samples|, shaping, a) == a * shaping.window <= PauseEnd(|samples|, shaping, b) <= |samples|
    ensures KeptSamples(samples, flags, shaping, PauseEnd(|samples|, shaping, a), |samples|)
         == KeptSamples(samples, flags, shaping, a * shaping.window, PauseEnd(|samples|, shaping, b))
            + KeptSamples(samples, flags, shaping, PauseEnd(|samples|, shaping, b), |samples|)
  {
    Positions(|samples|, flags, shaping, a, b);
    KeptSplit(samples, flags, shaping, a * shaping.window, PauseEnd(|samples|, shaping, b), |samples|);
  }

  /** What the pauses from window `index` on lose: each long one its length less `keep`. */
  function Removed(length: nat, flags: seq<bool>, shaping: Shaping, index: nat): int
    requires index <= |flags|
    decreases |flags| - index
  {
    if index == |flags| then 0
    else if flags[index] then Removed(length, flags, shaping, index + 1)
    else
      var b := RunEnd(flags, index);
      (if Shortened(length, flags, shaping, index, b)
       then PauseEnd(length, shaping, b) - index * shaping.window - shaping.keep else 0)
      + Removed(length, flags, shaping, b)
  }

  lemma PieceLength<T>(samples: seq<T>, flags: seq<bool>, shaping: Shaping, a: nat, b: nat)
    requires Judged(|samples|, flags, shaping) && shaping.keep <= ShortestLong(shaping) && a < b <= |flags|
    ensures PauseEnd(|samples|, shaping, a) == a * shaping.window
    ensures b == a + 1 ==> |Window(samples, shaping.window, a)| == PauseEnd(|samples|, shaping, b) - a * shaping.window
    ensures |Pause(samples, flags, shaping, a, b)|
         == if Shortened(|samples|, flags, shaping, a, b) then shaping.keep
            else PauseEnd(|samples|, shaping, b) - a * shaping.window
  {
    Positions(|samples|, flags, shaping, a, b);
    if Shortened(|samples|, flags, shaping, a, b) {
      LongPause(|samples|, flags, shaping, a, b);
    }
  }

  /** The output is shorter than the input by exactly what the long pauses lose. */
  lemma {:induction false} CompressedLength<T>(samples: seq<T>, flags: seq<bool>, shaping: Shaping, index: nat)
    requires Judged(|samples|, flags, shaping) && shaping.keep <= ShortestLong(shaping) && index <= |flags|
    ensures |Compressed(samples, flags, shaping, index)|
         == |samples| - PauseEnd(|samples|, shaping, index) - Removed(|samples|, flags, shaping, index)
    decreases |flags| - index
  {
    if index < |flags| {
      if flags[index] {
        PieceLength(samples, flags, shaping, index, index + 1);
        CompressedLength(samples, flags, shaping, index + 1);
      } else {
        PieceLength(samples, flags, shaping, index, RunEnd(flags, index));
        CompressedLength(samples, flags, shaping, RunEnd(flags, index));
      }
    } else {
      CeilingIs(|samples|, shaping.window, index);
    }
  }

  // Exactly which lengths to keep are safe.

  /** The windows of the shortest pause that is shortened. */
  function PauseWindows(shaping: Shaping): (m: nat)
    requires shaping.window > 0
    ensures m > 0 && m * shaping.window == ShortestLong(shaping)
  {
    Max(1, shaping.longerThan / shaping.window + 1)
  }

  /** Speech, that pause, and speech again, each side longer than what is kept. */
  function OverLong(shaping: Shaping): (flags: seq<bool>)
    requires shaping.window > 0
    ensures |flags| == shaping.keep + 1 + PauseWindows(shaping) + shaping.keep + 1
    ensures forall w :: 0 <= w < |flags| ==> (flags[w] <==> !(shaping.keep + 1 <= w < shaping.keep + 1 + PauseWindows(shaping)))
  {
    Repeat(true, shaping.keep + 1) + Repeat(false, PauseWindows(shaping)) + Repeat(true, shaping.keep + 1)
  }

  /** That pause is over the limit. */
  lemma PauseIsLong(shaping: Shaping)
    requires shaping.window > 0
    ensures ShortestLong(shaping) > shaping.longerThan
  {
    var q := shaping.longerThan / shaping.window;
    assert shaping.longerThan == q * shaping.window + shaping.longerThan % shaping.window;
    assert (q + 1) * shaping.window == q * shaping.window + shaping.window;
    Multiples(q + 1, Max(1, q + 1), shaping.window);
  }

  /** Where its middle lies, in samples. */
  lemma OverLongSizes(shaping: Shaping)
    requires shaping.window > 0
    ensures var w, p, m := shaping.window, shaping.keep + 1, PauseWindows(shaping);
            && |OverLong(shaping)| * w == p * w + ShortestLong(shaping) + p * w
            && (p + m) * w == p * w + ShortestLong(shaping) && p * w > shaping.keep
            && (|OverLong(shaping)| - (p + m)) * w == p * w
  {
    var w, p, m := shaping.window, shaping.keep + 1, PauseWindows(shaping);
    assert |OverLong(shaping)| == p + m + p;
    assert (p + m + p) * w == p * w + m * w + p * w && (p + m) * w == p * w + m * w;
    MonotoneTimes(p, w);
  }

  lemma MonotoneTimes(p: nat, w: nat)
    requires w > 0
    ensures p * w >= p
  {
  }

  lemma OneMore(n: nat, w: nat)
    ensures (n + 1) * w == n * w + w
  {
  }

  lemma WholeWindow<T>(samples: seq<T>, window: nat, w: nat)
    requires (w + 1) * window <= |samples|
    ensures |Window(samples, window, w)| == window
  {
    OneMore(w, window);
  }

  /** The last window is as long as the others. */
  ghost predicate WholeWindows<T>(samples: seq<T>, flags: seq<bool>, window: nat) {
    forall w :: 0 <= w < |flags| ==> |Window(samples, window, w)| == window
  }

  lemma AllWhole<T>(samples: seq<T>, flags: seq<bool>, window: nat)
    requires |samples| == |flags| * window
    ensures WholeWindows(samples, flags, window)
  {
    forall w | 0 <= w < |flags| ensures |Window(samples, window, w)| == window {
      MonotoneProduct(w + 1, |flags|, window);
      WholeWindow(samples, window, w);
    }
  }

  /** An active window comes out as long as it went in. */
  lemma ActiveWindowLength<T>(samples: seq<T>, flags: seq<bool>, shaping: Shaping, a: nat)
    requires WholeWindows(samples, flags, shaping.window) && a < |flags| && flags[a]
    ensures |Compressed(samples, flags, shaping, a)| == shaping.window + |Compressed(samples, flags, shaping, a + 1)|
  {
  }

  /** From `i` on the output is one window longer than from the next. */
  predicate Longer(length: int -> int, i: int, w: nat) {
    length(i) == w + length(i + 1)
  }

  lemma {:induction false} Stretch(length: int -> int, a: int, n: nat, w: nat)
    requires forall i :: a <= i < a + n ==> Longer(length, i, w)
    ensures length(a) == n * w + length(a + n)
    decreases n
  {
    if n > 0 {
      assert Longer(length, a, w);
      Stretch(length, a + 1, n - 1, w);
      OneMore(n - 1, w);
    }
  }

  /** How long the output from window `i` on is. */
  function LengthFrom<T>(samples: seq<T>, flags: seq<bool>, shaping: Shaping): int -> int {
    (i: int) => if 0 <= i <= |flags| then |Compressed(samples, flags, shaping, i)| else 0
  }

  /** And a stretch of `n` of them. */
  lemma ActiveLength<T>(samples: seq<T>, flags: seq<bool>, shaping: Shaping, a: nat, n: nat)
    requires WholeWindows(samples, flags, shaping.window) && a + n <= |flags|
    requires forall w :: a <= w < a + n ==> flags[w]
    ensures LengthFrom(samples, flags, shaping)(a) == n * shaping.window + LengthFrom(samples, flags, shaping)(a + n)
  {
    var length := LengthFrom(samples, flags, shaping);
    forall i | a <= i < a + n ensures Longer(length, i, shaping.window) {
      ActiveWindowLength(samples, flags, shaping, i);
    }
    Stretch(length, a, n, shaping.window);
  }

  /** A shortened pause with room to either side comes out `keep` long, whatever that is. */
  lemma ShortenedLength<T>(samples: seq<T>, flags: seq<bool>, shaping: Shaping, a: nat, b: nat)
    requires Shortened(|samples|, flags, shaping, a, b) && b * shaping.window < |samples|
    requires a * shaping.window + shaping.keep <= |samples| && shaping.keep <= b * shaping.window
    ensures |Pause(samples, flags, shaping, a, b)| == shaping.keep
  {
  }

  lemma RunEndIs(flags: seq<bool>, a: nat, b: nat)
    requires a < b < |flags| && flags[b] && forall w :: a <= w < b ==> !flags[w]
    ensures RunEnd(flags, a) == b
  {
    assert flags[b];
  }

  /** Audio with one pause in it comes out as its speech and what the pause becomes. */
  lemma OnePauseLength<T>(samples: seq<T>, flags: seq<bool>, shaping: Shaping, p: nat, q: nat, tail: nat, kept: nat)
    requires WholeWindows(samples, flags, shaping.window) && p < q < |flags| == q + tail
    requires forall w :: 0 <= w < |flags| ==> (flags[w] <==> !(p <= w < q))
    requires |Pause(samples, flags, shaping, p, q)| == kept
    ensures |Compressed(samples, flags, shaping, 0)| == p * shaping.window + kept + tail * shaping.window
  {
    ActiveLength(samples, flags, shaping, 0, p);
    RunEndIs(flags, p, q);
    ActiveLength(samples, flags, shaping, q, tail);
  }

  /** That pause is shortened to `keep`. */
  lemma OverLongPause<T>(shaping: Shaping, samples: seq<T>)
    requires shaping.window > 0 && |samples| == |OverLong(shaping)| * shaping.window
    ensures var p, m := shaping.keep + 1, PauseWindows(shaping);
            |Pause(samples, OverLong(shaping), shaping, p, p + m)| == shaping.keep
  {
    OverLongSizes(shaping);
    PauseIsLong(shaping);
    ShortenedLength(samples, OverLong(shaping), shaping, shaping.keep + 1, shaping.keep + 1 + PauseWindows(shaping));
  }

  lemma OverLongLength<T>(shaping: Shaping, samples: seq<T>)
    requires shaping.window > 0 && |samples| == |OverLong(shaping)| * shaping.window
    ensures var p := shaping.keep + 1;
            |Compressed(samples, OverLong(shaping), shaping, 0)| == p * shaping.window + shaping.keep + p * shaping.window
  {
    var p := shaping.keep + 1;
    OverLongPause(shaping, samples);
    AllWhole(samples, OverLong(shaping), shaping.window);
    OnePauseLength(samples, OverLong(shaping), shaping, p, p + PauseWindows(shaping), p, shaping.keep);
  }

  lemma OverLongFits<T>(shaping: Shaping, samples: seq<T>)
    requires shaping.window > 0 && |samples| == |OverLong(shaping)| * shaping.window
    ensures |Compressed(samples, OverLong(shaping), shaping, 0)| == |samples| - ShortestLong(shaping) + shaping.keep
  {
    OverLongSizes(shaping);
    OverLongLength(shaping, samples);
  }

  lemma JudgedWhole(n: nat, window: nat)
    requires window > 0
    ensures Windows(n * window, window) == n
  {
    CeilingIs(n * window, window, n);
    if n > 0 {
      assert (n - 1) * window < n * window;
      CeilingIs(n * window, window, n - 1);
    }
  }

  lemma {:induction false} KeptAtMostAll<T>(samples: seq<T>, flags: seq<bool>, shaping: Shaping, lo: nat, hi: nat)
    requires Judged(|samples|, flags, shaping) && lo <= hi <= |samples|
    ensures |KeptSamples(samples, flags, shaping, lo, hi)| <= hi - lo
    decreases hi - lo
  {
    if lo < hi {
      KeptAtMostAll(samples, flags, shaping, lo + 1, hi);
    }
  }

  /** Audio that is `x` in the windows flagged and silent in the others. */
  function Spread(flags: seq<bool>, window: nat, x: real): (samples: seq<real>)
    requires window > 0
    ensures |samples| == |flags| * window
  {
    seq(|flags| * window, j requires 0 <= j < |flags| * window =>
      WindowOf(j, window, 0, |flags|);
      if flags[j / window] then x else 0.0)
  }

  lemma SpreadWindow(flags: seq<bool>, window: nat, x: real, w: nat)
    requires window > 0 && w < |flags|
    ensures var chunk := Window(Spread(flags, window, x), window, w);
      |chunk| == window && forall i :: 0 <= i < window ==> chunk[i] == if flags[w] then x else 0.0
  {
    var samples, chunk := Spread(flags, window, x), Window(Spread(flags, window, x), window, w);
    OneMore(w, window);
    MonotoneProduct(w + 1, |flags|, window);
    assert chunk == samples[w * window..w * window + window];
    forall i | 0 <= i < window ensures chunk[i] == if flags[w] then x else 0.0 {
      WindowOf(w * window + i, window, w, w + 1);
    }
  }

  lemma {:induction false} EnergyOfOneLevel(chunk: seq<real>, x: real, square: real)
    requires square == x * x && forall i :: 0 <= i < |chunk| ==> chunk[i] == x
    ensures Signals.Energy(chunk) == |chunk| as real * square
  {
    if chunk != [] {
      EnergyOfOneLevel(chunk[..|chunk| - 1], x, square);
      OneTimeMore(|chunk| - 1, square);
    }
  }

  lemma OneTimeMore(n: nat, q: real)
    ensures (n + 1) as real * q == n as real * q + q
  {
  }

  lemma PositiveProduct(x: real, q: real, product: real)
    requires x > 0.0 && q > 0.0 && product == x * q
    ensures product > 0.0
  {
  }

  /** A window at the threshold is active, and a silent one is not. */
  lemma LevelJudged(chunk: seq<real>, threshold: real, active: bool)
    requires chunk != [] && threshold > 0.0
    requires forall i :: 0 <= i < |chunk| ==> chunk[i] == if active then threshold else 0.0
    ensures Loudness(threshold)(chunk) == active
  {
    var square := threshold * threshold;
    PositiveProduct(threshold, threshold, square);
    PositiveProduct(|chunk| as real, square, |chunk| as real * square);
    EnergyOfOneLevel(chunk, if active then threshold else 0.0, if active then square else 0.0);
  }

  lemma SpreadJudged(flags: seq<bool>, window: nat, threshold: real, w: nat)
    requires window > 0 && threshold > 0.0 && w < |flags|
    ensures Loudness(threshold)(Window(Spread(flags, window, threshold), window, w)) == flags[w]
  {
    SpreadWindow(flags, window, threshold, w);
    LevelJudged(Window(Spread(flags, window, threshold), window, w), threshold, flags[w]);
  }

  /** Any flags are those the code judges some audio by. */
  lemma JudgedAsSpread(flags: seq<bool>, window: nat, threshold: real)
    requires window > 0 && threshold > 0.0
    ensures Flags(Spread(flags, window, threshold), Loudness(threshold), window) == flags
  {
    JudgedWhole(|flags|, window);
    forall w: nat | w < |flags| ensures Loudness(threshold)(Window(Spread(flags, window, threshold), window, w)) == flags[w] {
      SpreadJudged(flags, window, threshold, w);
    }
  }

  /** For all audio, judged at this threshold, the output is exactly the kept samples. */
  ghost predicate KeepsExactly(shaping: Shaping, threshold: real)
    requires shaping.window > 0
  {
    forall samples :: var flags := Flags(samples, Loudness(threshold), shaping.window);
      Compressed(samples, flags, shaping, 0) == KeptSamples(samples, flags, shaping, 0, |samples|)
  }

  /** It is exactly when `keep` is no longer than the shortest pause that is shortened. */
  lemma KeepsExactlyIff(shaping: Shaping, threshold: real)
    requires shaping.window > 0 && threshold > 0.0
    ensures KeepsExactly(shaping, threshold) <==> shaping.keep <= ShortestLong(shaping)
  {
    if shaping.keep <= ShortestLong(shaping) {
      forall samples ensures var flags := Flags(samples, Loudness(threshold), shaping.window);
        Compressed(samples, flags, shaping, 0) == KeptSamples(samples, flags, shaping, 0, |samples|)
      {
        CompressedIsWhatIsKept(samples, Flags(samples, Loudness(threshold), shaping.window), shaping, 0);
      }
    } else {
      var flags := OverLong(shaping);
      var samples := Spread(flags, shaping.window, threshold);
      KeepTooLongLengthens(shaping, threshold);
      JudgedAsSpread(flags, shaping.window, threshold);
      KeptAtMostAll(samples, flags, shaping, 0, |samples|);
    }
  }

  /** And above that a pause, in audio the code judges to have it, comes out longer than it went in. */
  lemma KeepTooLongLengthens(shaping: Shaping, threshold: real)
    requires shaping.window > 0 && threshold > 0.0 && shaping.keep > ShortestLong(shaping)
    ensures var samples := Spread(OverLong(shaping), shaping.window, threshold);
      |Compressed(samples, Flags(samples, Loudness(threshold), shaping.window), shaping, 0)| > |samples|
  {
    JudgedAsSpread(OverLong(shaping), shaping.window, threshold);
    OverLongFits(shaping, Spread(OverLong(shaping), shaping.window, threshold));
  }

  // Trimming: the silence before the first and after the last speech.

  /** The last active window before window `n`, counted from the end. */
  function LastActive(flags: seq<bool>, n: nat): (r: Option<nat>)
    requires n <= |flags|
    ensures r.Some? ==> r.value < n && flags[r.value]
    ensures forall w :: 0 <= w < n && flags[w] ==> r.Some? && w <= r.value
  {
    if n == 0 then None else if flags[n - 1] then Some(n - 1) else LastActive(flags, n - 1)
  }

  /** Where the trimmed audio starts and ends, given the first and last active windows. */
  function TrimStart(window: nat, keep: nat, first: nat): nat {
    Max(0, first * window - keep)
  }

  function TrimEnd(length: nat, window: nat, keep: nat, last: nat): (r: nat)
    ensures r <= length
  {
    if (last + 1) * window + keep < length then (last + 1) * window + keep else length
  }

  function Trimmed<T>(samples: seq<T>, flags: seq<bool>, window: nat, keep: nat): seq<T> {
    var last := LastActive(flags, |flags|);
    if last.None? then []
    else Slice(samples, TrimStart(window, keep, RunEnd(flags, 0)), TrimEnd(|samples|, window, keep, last.value))
  }

  /** Sample `j` lies in an active window. */
  predicate Speech(length: nat, flags: seq<bool>, window: nat, j: nat)
    requires window > 0 && |flags| == Windows(length, window)
  {
    j < length && j / window < |flags| && flags[j / window]
  }

  /** The first and the last sample of speech. */
  ghost predicate FirstSpeech(length: nat, flags: seq<bool>, window: nat, f: nat)
    requires window > 0 && |flags| == Windows(length, window)
  {
    Speech(length, flags, window, f) && forall j: nat :: Speech(length, flags, window, j) ==> f <= j
  }

  ghost predicate LastSpeech(length: nat, flags: seq<bool>, window: nat, l: nat)
    requires window > 0 && |flags| == Windows(length, window)
  {
    Speech(length, flags, window, l) && forall j: nat :: Speech(length, flags, window, j) ==> j <= l
  }

  /** From `keep` samples before the first of the speech to `keep` after the last, as far as there are any. */
  function Trim<T>(samples: seq<T>, keep: nat, f: nat, l: nat): seq<T>
    requires f <= l < |samples|
  {
    var end := if l + 1 + keep < |samples| then l + 1 + keep else |samples|;
    samples[Max(0, f - keep)..end]
  }

  lemma SpeechWindow(length: nat, flags: seq<bool>, window: nat, w: nat, j: nat)
    requires window > 0 && |flags| == Windows(length, window) && w < |flags| && flags[w]
    requires w * window <= j < (w + 1) * window && j < length
    ensures Speech(length, flags, window, j)
  {
    WindowOf(j, window, w, w + 1);
  }

  lemma SpeechBetween(length: nat, flags: seq<bool>, window: nat, first: nat, last: nat, j: nat)
    requires window > 0 && |flags| == Windows(length, window) && Speech(length, flags, window, j)
    requires forall w :: 0 <= w < |flags| && flags[w] ==> first <= w <= last
    ensures first * window <= j < (last + 1) * window
  {
    var w := j / window;
    MonotoneProduct(first, w, window);
    MonotoneProduct(w + 1, last + 1, window);
    assert j == w * window + j % window && (w + 1) * window == w * window + window;
  }

  /** Where the first active window starts, speech starts; where the last one ends, it ends. */
  lemma SpeechEnds(length: nat, flags: seq<bool>, window: nat, first: nat, last: nat)
    requires window > 0 && |flags| == Windows(length, window) && first <= last < |flags| && flags[first] && flags[last]
    requires forall w :: 0 <= w < |flags| && flags[w] ==> first <= w <= last
    ensures first * window < length && FirstSpeech(length, flags, window, first * window)
    ensures LastSpeech(length, flags, window, (if (last + 1) * window < length then (last + 1) * window else length) - 1)
  {
    var l := (if (last + 1) * window < length then (last + 1) * window else length) - 1;
    WindowStarts(length, flags, window, first, last);
    SpeechWindow(length, flags, window, first, first * window);
    SpeechWindow(length, flags, window, last, l);
    forall j: nat | Speech(length, flags, window, j) ensures first * window <= j <= l {
      SpeechBetween(length, flags, window, first, last, j);
    }
  }

  /** What is left has `keep` samples before the first of the speech and after the last, or all there are. */
  ghost predicate TrimsTo<T>(samples: seq<T>, flags: seq<bool>, window: nat, keep: nat, trimmed: seq<T>)
    requires window > 0 && |flags| == Windows(|samples|, window)
  {
    exists f: nat, l: nat ::
      && FirstSpeech(|samples|, flags, window, f) && LastSpeech(|samples|, flags, window, l)
      && f <= l < |samples| && trimmed == Trim(samples, keep, f, l)
  }

  lemma SpeechIsActive(length: nat, flags: seq<bool>, window: nat, j: nat)
    requires window > 0 && |flags| == Windows(length, window) && Speech(length, flags, window, j)
    ensures LastActive(flags, |flags|).Some?
  {
  }

  lemma SomeSpeechIsKept<T>(samples: seq<T>, flags: seq<bool>, window: nat, keep: nat)
    requires window > 0 && |flags| == Windows(|samples|, window) && LastActive(flags, |flags|).Some?
    ensures TrimsTo(samples, flags, window, keep, Trimmed(samples, flags, window, keep))
    ensures exists j: nat :: Speech(|samples|, flags, window, j)
  {
    var first, last := RunEnd(flags, 0), LastActive(flags, |flags|).value;
    SpeechEnds(|samples|, flags, window, first, last);
    TrimsAlike(samples, flags, window, keep, first, last);
  }

  /** Trimming takes out exactly the outer silence beyond `keep`, and everything where nothing is speech. */
  lemma TrimmingKeepsTheSpeech<T>(samples: seq<T>, flags: seq<bool>, window: nat, keep: nat)
    requires window > 0 && |flags| == Windows(|samples|, window)
    ensures if exists j: nat :: Speech(|samples|, flags, window, j)
            then TrimsTo(samples, flags, window, keep, Trimmed(samples, flags, window, keep))
            else Trimmed(samples, flags, window, keep) == []
  {
    if LastActive(flags, |flags|).Some? {
      SomeSpeechIsKept(samples, flags, window, keep);
    } else {
      forall j: nat ensures !Speech(|samples|, flags, window, j) {
        if Speech(|samples|, flags, window, j) {
          SpeechIsActive(|samples|, flags, window, j);
        }
      }
    }
  }

  /** In samples, the slice trimming takes. */
  lemma TrimsAlike<T>(samples: seq<T>, flags: seq<bool>, window: nat, keep: nat, first: nat, last: nat)
    requires window > 0 && |flags| == Windows(|samples|, window) && first <= last < |flags|
    ensures var l := (if (last + 1) * window < |samples| then (last + 1) * window else |samples|) - 1;
            && first * window <= l < |samples|
            && Slice(samples, TrimStart(window, keep, first), TrimEnd(|samples|, window, keep, last))
               == Trim(samples, keep, first * window, l)
  {
    WindowStarts(|samples|, flags, window, first, last);
  }

  /** Both windows start inside the audio, the last no earlier than the first. */
  lemma WindowStarts(length: nat, flags: seq<bool>, window: nat, first: nat, last: nat)
    requires window > 0 && |flags| == Windows(length, window) && first <= last < |flags|
    ensures first * window <= last * window < length
    ensures first * window < (first + 1) * window && last * window < (last + 1) * window
  {
    CeilingIs(length, window, last);
    MonotoneProduct(first, last, window);
  }

  /** A slice from the end, as the last samples of a pause are taken: the last `k`, or all there are. */
  lemma SliceFromTheEnd<T>(s: seq<T>, k: nat)
    requires k > 0
    ensures Slice(s, 0 - k, |s|) == if k <= |s| then s[|s| - k..] else s
    ensures Slice(s, 0, 0 - k) == if k <= |s| then s[..|s| - k] else []
  {
  }

  /** No speech before window `w`, or none from it on. */
  predicate OuterSilence(flags: seq<bool>, w: nat) {
    (forall i :: 0 <= i <= w && i < |flags| ==> !flags[i]) || (forall i :: w <= i < |flags| ==> !flags[i])
  }

  /** Windows `a` to `b` are the silence between two stretches of speech. */
  predicate PauseBetween(flags: seq<bool>, a: nat, b: nat) {
    0 < a < b < |flags| && flags[a - 1] && flags[b] && forall i :: a <= i < b ==> !flags[i]
  }

  lemma RunOf(flags: seq<bool>, a: nat, b: nat, w: nat)
    requires PauseBetween(flags, a, b) && a <= w < b
    ensures RunStart(flags, w) == a && RunEnd(flags, w) == b
  {
    RunEndIs(flags, a, b);
    SameRun(flags, a, w);
  }

  /** What is kept, by the flags alone: speech, the silence before and after all of it, and of each pause between. */
  lemma WhatIsKept(length: nat, flags: seq<bool>, shaping: Shaping, j: nat)
    requires Judged(length, flags, shaping) && j < length
    ensures j / shaping.window < |flags|
    ensures flags[j / shaping.window] || OuterSilence(flags, j / shaping.window) ==> Kept(length, flags, shaping, j)
  {
    WindowInRange(length, shaping.window, j);
  }

  /** A pause no longer than the limit is kept whole; of a longer one, `keep / 2` at its start and the rest at its end. */
  lemma WhatIsKeptOfAPause(length: nat, flags: seq<bool>, shaping: Shaping, a: nat, b: nat, j: nat)
    requires Judged(length, flags, shaping) && PauseBetween(flags, a, b) && a * shaping.window <= j < b * shaping.window
    ensures j < length && b * shaping.window < length
    ensures Kept(length, flags, shaping, j)
       <==> || b * shaping.window - a * shaping.window <= shaping.longerThan
            || j < a * shaping.window + shaping.keep / 2
            || j >= b * shaping.window - (shaping.keep - shaping.keep / 2)
  {
    CeilingIs(length, shaping.window, b);
    WindowOf(j, shaping.window, a, b);
    RunOf(flags, a, b, j / shaping.window);
  }
}

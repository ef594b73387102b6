/**
 Whether the bot is speaking, decided frame by frame with hysteresis: a run of loud frames opens a span, any
 frame not below the quiet level keeps it open, and long enough below that level closes it.
 */
module DownlinkActivity {
  import opened Sequences

  const TOLERANCE := 0.000001

  datatype Thresholds = Thresholds(loud: real, quiet: real, framesToOpen: int, secondsToClose: real)

  datatype Span = Span(start: real, end: real)

  /** The detector's fields. `mark` is absent before the first mark: everything counts. */
  datatype Activity = Activity(closed: seq<Span>, openStart: Option<real>, activeEnd: Option<real>,
                               candidateStart: Option<real>, candidateFrames: int, candidateSpoken: real,
                               mark: Option<real>, spoken: real)

  const SILENT := Activity([], None, None, None, 0, 0.0, None, 0.0)

  predicate SinceMark(mark: Option<real>, time: real) {
    mark.None? || time >= mark.value
  }

  function NoCandidate(a: Activity): Activity {
    a.(candidateStart := None, candidateFrames := 0, candidateSpoken := 0.0)
  }

  /** A frame heard while a span is open. */
  function WhileOpen(th: Thresholds, a: Activity, end: real, level: real, spoken: real): Activity
    requires a.openStart.Some? && a.activeEnd.Some?
  {
    if level >= th.quiet then a.(activeEnd := Some(end), spoken := a.spoken + spoken)
    else if end - a.activeEnd.value >= th.secondsToClose - TOLERANCE
    then a.(closed := a.closed + [Span(a.openStart.value, a.activeEnd.value)], openStart := None)
    else a
  }

  /** A loud frame heard while no span is open. */
  function Candidate(th: Thresholds, a: Activity, time: real, end: real, spoken: real): Activity {
    var start := if a.candidateStart.None? then time else a.candidateStart.value;
    var frames, heard := a.candidateFrames + 1, a.candidateSpoken + spoken;
    if frames >= th.framesToOpen
    then NoCandidate(a.(openStart := Some(start), activeEnd := Some(end), spoken := a.spoken + heard))
    else a.(candidateStart := Some(start), candidateFrames := frames, candidateSpoken := heard)
  }

  /** One frame, starting at `time`, with this level. */
  function Observed(th: Thresholds, frame: real, a: Activity, time: real, level: real): Activity {
    var end, loud := time + frame, level >= th.loud;
    var spoken := if loud && SinceMark(a.mark, time) then frame else 0.0;
    if a.openStart.Some? && a.activeEnd.Some? then WhileOpen(th, a, end, level, spoken)
    else if !loud then NoCandidate(a)
    else Candidate(th, a, time, end, spoken)
  }

  function Marked(a: Activity, time: real): Activity {
    a.(mark := Some(time), spoken := 0.0)
  }

  /** How long the bot has been quiet; nothing when it has never spoken. */
  function QuietFor(a: Activity, now: real): Option<real> {
    if a.activeEnd.None? then None else Some(now - a.activeEnd.value)
  }

  predicate Ready(a: Activity, now: real, minimumSpeech: real, quietSeconds: real) {
    && a.spoken >= minimumSpeech - TOLERANCE
    && (a.activeEnd.None? || now - a.activeEnd.value >= quietSeconds - TOLERANCE)
  }

  function SpansSoFar(a: Activity): seq<Span> {
    a.closed + if a.openStart.Some? && a.activeEnd.Some? then [Span(a.openStart.value, a.activeEnd.value)] else []
  }

  class Detector {
    const thresholds: Thresholds
    const frameSeconds: real
    var closed: seq<Span>
    var openStart: Option<real>
    var activeEnd: Option<real>
    var candidateStart: Option<real>
    var candidateFrames: int
    var candidateSpoken: real
    var mark: Option<real>
    var spokenSinceMark: real

    ghost function View(): Activity
      reads this
    {
      Activity(closed, openStart, activeEnd, candidateStart, candidateFrames, candidateSpoken, mark, spokenSinceMark)
    }

    constructor (thresholds: Thresholds, frameSeconds: real)
      ensures this.thresholds == thresholds && this.frameSeconds == frameSeconds && View() == SILENT
    {
      this.thresholds, this.frameSeconds := thresholds, frameSeconds;
      closed, openStart, activeEnd := [], None, None;
      candidateStart, candidateFrames, candidateSpoken := None, 0, 0.0;
      mark, spokenSinceMark := None, 0.0;
    }

    method Observe(time: real, level: real)
      modifies this
      ensures View() == Observed(thresholds, frameSeconds, old(View()), time, level)
    {
      ghost var was := View();
      var end := time + frameSeconds;
      var loud := level >= thresholds.loud;
      var spoken := if loud && (mark.None? || time >= mark.value) then frameSeconds else 0.0;
      if openStart.Some? && activeEnd.Some? {
        if level >= thresholds.quiet {
          activeEnd := Some(end);
          spokenSinceMark := spokenSinceMark + spoken;
        } else if end - activeEnd.value >= thresholds.secondsToClose - TOLERANCE {
          closed := closed + [Span(openStart.value, activeEnd.value)];
          openStart := None;
        }
        assert View() == WhileOpen(thresholds, was, end, level, spoken);
        assert View() == Observed(thresholds, frameSeconds, was, time, level);
        return;
      }
      if !loud {
        candidateStart, candidateFrames, candidateSpoken := None, 0, 0.0;
        return;
      }
      candidateStart := if candidateStart.None? then Some(time) else candidateStart;
      candidateFrames := candidateFrames + 1;
      candidateSpoken := candidateSpoken + spoken;
      if candidateFrames >= thresholds.framesToOpen {
        openStart := candidateStart;
        activeEnd := Some(end);
        spokenSinceMark := spokenSinceMark + candidateSpoken;
        candidateStart, candidateFrames, candidateSpoken := None, 0, 0.0;
      }
      assert View() == Candidate(thresholds, was, time, end, spoken);
      assert View() == Observed(thresholds, frameSeconds, was, time, level);
    }

    method Mark(time: real)
      modifies this
      ensures View() == Marked(old(View()), time)
    {
      mark := Some(time);
      spokenSinceMark := 0.0;
    }

    /** Infinite, here absent, when the bot has never spoken. */
    method QuietSeconds(now: real) returns (quiet: Option<real>)
      ensures quiet == QuietFor(View(), now)
    {
      if activeEnd.None? {
        return None;
      }
      return Some(now - activeEnd.value);
    }

    method ReadyToSpeak(now: real, minimumSpeech: real, quietSeconds: real) returns (ready: bool)
      ensures ready == Ready(View(), now, minimumSpeech, quietSeconds)
    {
      var quiet := QuietSeconds(now);
      ready := spokenSinceMark >= minimumSpeech - TOLERANCE && (quiet.None? || quiet.value >= quietSeconds - TOLERANCE);
    }

    method Spans() returns (spans: seq<Span>)
      ensures spans == SpansSoFar(View())
    {
      spans := closed;
      if openStart.Some? && activeEnd.Some? {
        spans := spans + [Span(openStart.value, activeEnd.value)];
      }
    }
  }

  // A run of contiguous frames, told by frame number.

  /** `n` frames' worth of time. */
  function Length(frame: real, n: nat): real {
    if n == 0 then 0.0 else Length(frame, n - 1) + frame
  }

  /** When frame `i` of a run starting at `start` starts. */
  function TimeOf(start: real, frame: real, i: nat): real {
    start + Length(frame, i)
  }

  lemma {:induction false} LengthAdds(frame: real, a: nat, b: nat)
    ensures Length(frame, a + b) == Length(frame, a) + Length(frame, b)
  {
    if b > 0 {
      LengthAdds(frame, a, b - 1);
    }
  }

  lemma {:induction false} LengthGrows(frame: real, a: nat, b: nat)
    requires frame > 0.0 && a <= b
    ensures Length(frame, a) <= Length(frame, b)
    ensures a < b ==> Length(frame, a) < Length(frame, b)
  {
    if a < b {
      LengthGrows(frame, a, b - 1);
    }
  }

  /** A span by its first and last frame. */
  datatype Run = Run(first: nat, last: nat)

  /** The detector by frame numbers: the open span's first frame, the last active frame, a run of loud frames. */
  datatype Track = Track(closed: seq<Run>, open: Option<nat>, last: Option<nat>, candidate: nat)

  /** Whether `n` frames below the quiet level are long enough to close a span. */
  predicate Closes(th: Thresholds, frame: real, n: nat) {
    Length(frame, n) >= th.secondsToClose - TOLERANCE
  }

  /** A track of the first `n` frames points at frames seen. */
  predicate Fits(d: Track, n: nat) {
    && d.candidate <= n && (d.last.Some? ==> d.last.value < n)
    && (d.open.Some? ==> d.last.Some? && d.open.value <= d.last.value && d.candidate == 0)
  }

  function TrackStep(th: Thresholds, frame: real, d: Track, i: nat, level: real): (e: Track)
    requires Fits(d, i)
    ensures Fits(e, i + 1)
  {
    if d.open.Some? then
      if level >= th.quiet then d.(last := Some(i))
      else if Closes(th, frame, i - d.last.value)
      then d.(closed := d.closed + [Run(d.open.value, d.last.value)], open := None)
      else d
    else if level < th.loud then d.(candidate := 0)
    else if d.candidate + 1 >= th.framesToOpen
    then d.(open := Some(i - d.candidate), last := Some(i), candidate := 0)
    else d.(candidate := d.candidate + 1)
  }

  function Tracked(th: Thresholds, frame: real, levels: seq<real>): (d: Track)
    ensures Fits(d, |levels|)
  {
    if levels == [] then Track([], None, None, 0)
    else
      var n := |levels| - 1;
      TrackStep(th, frame, Tracked(th, frame, levels[..n]), n, levels[n])
  }

  /** Every span so far, the open one included. */
  function AllRuns(d: Track): seq<Run> {
    d.closed + if d.open.Some? && d.last.Some? then [Run(d.open.value, d.last.value)] else []
  }

  function SpanOf(start: real, frame: real, r: Run): Span {
    Span(TimeOf(start, frame, r.first), TimeOf(start, frame, r.last + 1))
  }

  function SpansOf(start: real, frame: real, runs: seq<Run>): (s: seq<Span>)
    ensures |s| == |runs|
  {
    seq(|runs|, i requires 0 <= i < |runs| => SpanOf(start, frame, runs[i]))
  }

  /** The detector's fields are the track's frame numbers, as times. */
  predicate Tells(start: real, frame: real, a: Activity, d: Track, n: nat) {
    && Fits(d, n)
    && a.closed == SpansOf(start, frame, d.closed)
    && a.openStart == (if d.open.Some? then Some(TimeOf(start, frame, d.open.value)) else None)
    && a.activeEnd == (if d.last.Some? then Some(TimeOf(start, frame, d.last.value + 1)) else None)
    && a.candidateFrames == d.candidate
    && a.candidateStart == (if d.candidate > 0 then Some(TimeOf(start, frame, n - d.candidate)) else None)
    && 0.0 <= a.candidateSpoken <= Length(frame, d.candidate)
  }

  lemma ObservedTells(th: Thresholds, start: real, frame: real, a: Activity, d: Track, n: nat, level: real)
    requires frame > 0.0 && Tells(start, frame, a, d, n)
    ensures Tells(start, frame, Observed(th, frame, a, TimeOf(start, frame, n), level), TrackStep(th, frame, d, n, level), n + 1)
  {
    if d.last.Some? {
      LengthAdds(frame, d.last.value + 1, n - d.last.value);
    }
    assert TimeOf(start, frame, n) + frame == TimeOf(start, frame, n + 1);
    assert Length(frame, d.candidate + 1) == Length(frame, d.candidate) + frame;
    var e := TrackStep(th, frame, d, n, level);
    assert |e.closed| > |d.closed| ==> e.closed == d.closed + [Run(d.open.value, d.last.value)];
  }

  // The detector fed a run of frames, marked at any points between them.

  datatype Input = Frame(level: real) | MarkAt(time: real)

  function Levels(inputs: seq<Input>): seq<real> {
    if inputs == [] then []
    else
      var n := |inputs| - 1;
      Levels(inputs[..n]) + if inputs[n].Frame? then [inputs[n].level] else []
  }

  function Fed(th: Thresholds, start: real, frame: real, inputs: seq<Input>): Activity {
    if inputs == [] then SILENT
    else
      var n := |inputs| - 1;
      var a := Fed(th, start, frame, inputs[..n]);
      match inputs[n]
      case Frame(level) => Observed(th, frame, a, TimeOf(start, frame, |Levels(inputs[..n])|), level)
      case MarkAt(time) => Marked(a, time)
  }

  /** One more frame fed. */
  lemma FedFrame(th: Thresholds, start: real, frame: real, inputs: seq<Input>)
    requires inputs != [] && inputs[|inputs| - 1].Frame?
    ensures var before := inputs[..|inputs| - 1];
      var levels, level := Levels(before), inputs[|inputs| - 1].level;
      && Levels(inputs) == levels + [level]
      && Fed(th, start, frame, inputs) == Observed(th, frame, Fed(th, start, frame, before), TimeOf(start, frame, |levels|), level)
      && Tracked(th, frame, Levels(inputs)) == TrackStep(th, frame, Tracked(th, frame, levels), |levels|, level)
  {
    assert Levels(inputs)[..|Levels(inputs)| - 1] == Levels(inputs[..|inputs| - 1]);
  }

  /** Marking never moves a span: the spans depend on the levels alone. */
  lemma {:induction false} FedTells(th: Thresholds, start: real, frame: real, inputs: seq<Input>)
    requires frame > 0.0
    ensures Tells(start, frame, Fed(th, start, frame, inputs), Tracked(th, frame, Levels(inputs)), |Levels(inputs)|)
  {
    if inputs != [] {
      var n := |inputs| - 1;
      var before := Levels(inputs[..n]);
      FedTells(th, start, frame, inputs[..n]);
      if inputs[n].Frame? {
        FedFrame(th, start, frame, inputs);
        ObservedTells(th, start, frame, Fed(th, start, frame, inputs[..n]), Tracked(th, frame, before), |before|, inputs[n].level);
      } else {
        assert Levels(inputs) == before;
      }
    }
  }

  lemma SpansTold(start: real, frame: real, a: Activity, d: Track, n: nat)
    requires Tells(start, frame, a, d, n)
    ensures SpansSoFar(a) == SpansOf(start, frame, AllRuns(d))
  {
  }

  // What the spans are, in terms of the levels.

  predicate Sane(th: Thresholds, frame: real) {
    th.framesToOpen >= 1 && th.loud >= th.quiet && frame > 0.0
  }

  predicate AllLoud(th: Thresholds, levels: seq<real>, from: nat, to: nat) {
    to <= |levels| && forall i :: from <= i < to ==> levels[i] >= th.loud
  }

  predicate AllBelow(th: Thresholds, levels: seq<real>, from: nat, to: nat) {
    to <= |levels| && forall i :: from <= i < to ==> levels[i] < th.quiet
  }

  /** A span starts with enough loud frames, as early as it can, ends on an active frame, and never pauses for long. */
  ghost predicate IsSpan(th: Thresholds, frame: real, levels: seq<real>, r: Run) {
    && th.framesToOpen >= 1 && r.first + th.framesToOpen <= r.last + 1 <= |levels|
    && AllLoud(th, levels, r.first, r.first + th.framesToOpen)
    && (r.first > 0 ==> levels[r.first - 1] < th.loud)
    && levels[r.last] >= th.quiet
    && forall i, j :: r.first <= i < j <= r.last + 1 && AllBelow(th, levels, i, j) ==> !Closes(th, frame, j - i)
  }

  /** `s` comes after `r`, at least the closing time later. */
  predicate Apart(th: Thresholds, frame: real, r: Run, s: Run) {
    r.last < s.first && Closes(th, frame, s.first - r.last - 1)
  }

  /** A long enough stretch below the quiet level follows the span's last frame. */
  ghost predicate EndedByQuiet(th: Thresholds, frame: real, levels: seq<real>, r: Run) {
    exists c: nat :: Closes(th, frame, c) && AllBelow(th, levels, r.last + 1, r.last + 1 + c)
  }

  /** Enough loud frames to open a span, from frame `i` on. */
  predicate LoudWindow(th: Thresholds, levels: seq<real>, i: nat) {
    th.framesToOpen >= 1 && AllLoud(th, levels, i, i + th.framesToOpen)
  }

  /** One span holds every frame of that window. */
  ghost predicate Holds(th: Thresholds, runs: seq<Run>, i: nat) {
    exists k :: 0 <= k < |runs| && runs[k].first <= i && i + th.framesToOpen <= runs[k].last + 1
  }

  /** What the track's pending part says of the newest frames. */
  ghost predicate Pending(th: Thresholds, frame: real, levels: seq<real>, d: Track) {
    var n := |levels|;
    && Fits(d, n)
    && (d.open.Some? ==>
      AllBelow(th, levels, d.last.value + 1, n) && !(n > d.last.value + 1 && Closes(th, frame, n - d.last.value - 1)))
    && (d.open.None? ==>
      && d.candidate < th.framesToOpen && AllLoud(th, levels, n - d.candidate, n)
      && (d.candidate < n ==> levels[n - d.candidate - 1] < th.loud)
      && forall k :: 0 <= k < |d.closed| ==> Apart(th, frame, d.closed[k], Run(n - d.candidate, n)))
  }

  /** Everything the spans of a run of frames satisfy. */
  ghost predicate Sound(th: Thresholds, frame: real, levels: seq<real>, d: Track) {
    var runs := AllRuns(d);
    && Pending(th, frame, levels, d)
    && (forall k :: 0 <= k < |runs| ==> IsSpan(th, frame, levels, runs[k]))
    && (forall k, l :: 0 <= k < l < |runs| ==> Apart(th, frame, runs[k], runs[l]))
    && (forall k :: 0 <= k < |d.closed| ==> EndedByQuiet(th, frame, levels, d.closed[k]))
    && (forall i: nat :: LoudWindow(th, levels, i) ==> Holds(th, runs, i))
  }

  lemma ClosesLater(th: Thresholds, frame: real, a: nat, b: nat)
    requires frame > 0.0 && a <= b && Closes(th, frame, a)
    ensures Closes(th, frame, b)
  {
    LengthGrows(frame, a, b);
  }

  /** A closed span stays what it was when frames are added. */
  lemma StillSpan(th: Thresholds, frame: real, levels: seq<real>, level: real, r: Run)
    requires IsSpan(th, frame, levels, r)
    ensures IsSpan(th, frame, levels + [level], r)
    ensures EndedByQuiet(th, frame, levels, r) ==> EndedByQuiet(th, frame, levels + [level], r)
  {
    var more := levels + [level];
    forall i, j | r.first <= i < j <= r.last + 1 && AllBelow(th, more, i, j) ensures !Closes(th, frame, j - i) {
      assert forall k :: i <= k < j ==> more[k] == levels[k];
      assert AllBelow(th, levels, i, j);
    }
    if EndedByQuiet(th, frame, levels, r) {
      var c: nat :| Closes(th, frame, c) && AllBelow(th, levels, r.last + 1, r.last + 1 + c);
      assert AllBelow(th, more, r.last + 1, r.last + 1 + c);
    }
  }

  /** However the step leaves the pending part, its start is no nearer to the spans already closed. */
  lemma StillBehind(th: Thresholds, frame: real, levels: seq<real>, level: real, d: Track, k: nat)
    requires Sane(th, frame) && Sound(th, frame, levels, d) && k < |d.closed|
    requires TrackStep(th, frame, d, |levels|, level).open.None?
    ensures var e := TrackStep(th, frame, d, |levels|, level);
      e.closed[k] == d.closed[k] && Apart(th, frame, e.closed[k], Run(|levels| + 1 - e.candidate, |levels| + 1))
  {
    var n, e := |levels|, TrackStep(th, frame, d, |levels|, level);
    var from := if d.open.Some? then d.open.value else n - d.candidate;
    assert d.open.Some? ==> AllRuns(d)[|d.closed|] == Run(d.open.value, d.last.value) && AllRuns(d)[k] == d.closed[k];
    assert Apart(th, frame, d.closed[k], Run(from, n));
    ClosesLater(th, frame, from - d.closed[k].last - 1, n + 1 - e.candidate - d.closed[k].last - 1);
  }

  lemma StillPending(th: Thresholds, frame: real, levels: seq<real>, level: real, d: Track)
    requires Sane(th, frame) && Sound(th, frame, levels, d)
    ensures Pending(th, frame, levels + [level], TrackStep(th, frame, d, |levels|, level))
  {
    var n, e := |levels|, TrackStep(th, frame, d, |levels|, level);
    if e.open.None? {
      forall k | 0 <= k < |e.closed| ensures Apart(th, frame, e.closed[k], Run(n + 1 - e.candidate, n + 1)) {
        if k < |d.closed| {
          StillBehind(th, frame, levels, level, d, k);
        }
      }
    }
  }

  /** A frame that is not below the quiet level takes the open span up to itself. */
  lemma Extended(th: Thresholds, frame: real, levels: seq<real>, level: real, r: Run)
    requires Sane(th, frame) && IsSpan(th, frame, levels, r) && level >= th.quiet
    requires AllBelow(th, levels, r.last + 1, |levels|)
    requires !(|levels| > r.last + 1 && Closes(th, frame, |levels| - r.last - 1))
    ensures IsSpan(th, frame, levels + [level], Run(r.first, |levels|))
  {
    var n, more := |levels|, levels + [level];
    forall i, j | r.first <= i < j <= n + 1 && AllBelow(th, more, i, j) ensures !Closes(th, frame, j - i) {
      assert j <= n by { assert more[n] == level; }
      assert forall k :: i <= k < j ==> more[k] == levels[k];
      if j <= r.last + 1 {
        assert AllBelow(th, levels, i, j);
      } else {
        assert i > r.last by { assert more[r.last] == levels[r.last]; }
        if Closes(th, frame, j - i) {
          ClosesLater(th, frame, j - i, n - r.last - 1);
        }
      }
    }
  }

  /** The loud run that reaches the needed length is a span from its first frame. */
  lemma Opened(th: Thresholds, frame: real, levels: seq<real>, level: real, candidate: nat)
    requires Sane(th, frame) && level >= th.loud && candidate <= |levels| && candidate + 1 == th.framesToOpen
    requires AllLoud(th, levels, |levels| - candidate, |levels|)
    requires candidate < |levels| ==> levels[|levels| - candidate - 1] < th.loud
    ensures IsSpan(th, frame, levels + [level], Run(|levels| - candidate, |levels|))
  {
    var n, more := |levels|, levels + [level];
    forall i, j | n - candidate <= i < j <= n + 1 ensures !AllBelow(th, more, i, j) {
      assert more[i] >= th.loud;
    }
  }

  lemma StillSpans(th: Thresholds, frame: real, levels: seq<real>, level: real, d: Track)
    requires Sane(th, frame) && Sound(th, frame, levels, d)
    ensures var runs := AllRuns(TrackStep(th, frame, d, |levels|, level)); (
      forall k :: 0 <= k < |runs| ==> IsSpan(th, frame, levels + [level], runs[k]))
  {
    var n, was, e := |levels|, AllRuns(d), TrackStep(th, frame, d, |levels|, level);
    var runs := AllRuns(e);
    forall k | 0 <= k < |runs| ensures IsSpan(th, frame, levels + [level], runs[k]) {
      if k < |was| && runs[k] == was[k] {
        StillSpan(th, frame, levels, level, was[k]);
      } else if d.open.Some? {
        assert k == |d.closed| && was[k] == Run(d.open.value, d.last.value);
        Extended(th, frame, levels, level, was[k]);
      } else {
        Opened(th, frame, levels, level, d.candidate);
      }
    }
  }

  lemma StillApart(th: Thresholds, frame: real, levels: seq<real>, level: real, d: Track)
    requires Sane(th, frame) && Sound(th, frame, levels, d)
    ensures var runs := AllRuns(TrackStep(th, frame, d, |levels|, level)); (
      forall k, l :: 0 <= k < l < |runs| ==> Apart(th, frame, runs[k], runs[l]))
  {
    var was, e := AllRuns(d), TrackStep(th, frame, d, |levels|, level);
    var runs := AllRuns(e);
    forall k, l | 0 <= k < l < |runs| ensures Apart(th, frame, runs[k], runs[l]) {
      assert runs[k] == d.closed[k] == was[k];
      if l < |was| {
        assert Apart(th, frame, was[k], was[l]) && runs[l].first == was[l].first;
      } else {
        assert Apart(th, frame, d.closed[k], Run(|levels| - d.candidate, |levels|));
      }
    }
  }

  lemma StillEnded(th: Thresholds, frame: real, levels: seq<real>, level: real, d: Track)
    requires Sane(th, frame) && Sound(th, frame, levels, d)
    ensures var e := TrackStep(th, frame, d, |levels|, level); (
      forall k :: 0 <= k < |e.closed| ==> EndedByQuiet(th, frame, levels + [level], e.closed[k]))
  {
    var was, e := AllRuns(d), TrackStep(th, frame, d, |levels|, level);
    forall k | 0 <= k < |e.closed| ensures EndedByQuiet(th, frame, levels + [level], e.closed[k]) {
      if k < |d.closed| {
        assert was[k] == d.closed[k];
        StillSpan(th, frame, levels, level, d.closed[k]);
      } else {
        var c := |levels| - d.last.value;
        assert AllBelow(th, levels + [level], d.last.value + 1, d.last.value + 1 + c);
      }
    }
  }

  /** A window that ends on the newest frame is inside the open span. */
  lemma NewestHeld(th: Thresholds, frame: real, levels: seq<real>, level: real, d: Track)
    requires Sane(th, frame) && Pending(th, frame, levels, d)
    requires d.open.Some? ==> IsSpan(th, frame, levels, Run(d.open.value, d.last.value))
    requires th.framesToOpen <= |levels| + 1
    requires LoudWindow(th, levels + [level], |levels| + 1 - th.framesToOpen)
    ensures var e := TrackStep(th, frame, d, |levels|, level);
      e.open.Some? && e.last == Some(|levels|) && e.open.value <= |levels| + 1 - th.framesToOpen
  {
    var n, more, i := |levels|, levels + [level], |levels| + 1 - th.framesToOpen;
    assert more[n] == level;
    var first := if d.open.Some? then d.open.value else n - d.candidate;
    assert first > 0 ==> more[first - 1] < th.loud;
    assert first <= i;
  }

  /** A step never takes a frame out of a span. */
  lemma HeldOn(th: Thresholds, frame: real, d: Track, n: nat, level: real, i: nat)
    requires Fits(d, n) && Holds(th, AllRuns(d), i)
    ensures Holds(th, AllRuns(TrackStep(th, frame, d, n, level)), i)
  {
    var was, runs := AllRuns(d), AllRuns(TrackStep(th, frame, d, n, level));
    var k :| 0 <= k < |was| && was[k].first <= i && i + th.framesToOpen <= was[k].last + 1;
    assert k < |runs| && runs[k].first <= i;
  }

  lemma StillHeld(th: Thresholds, frame: real, levels: seq<real>, level: real, d: Track, i: nat)
    requires Sane(th, frame) && Pending(th, frame, levels, d) && LoudWindow(th, levels + [level], i)
    requires d.open.Some? ==> IsSpan(th, frame, levels, Run(d.open.value, d.last.value))
    requires LoudWindow(th, levels, i) ==> Holds(th, AllRuns(d), i)
    ensures Holds(th, AllRuns(TrackStep(th, frame, d, |levels|, level)), i)
  {
    var n, more := |levels|, levels + [level];
    if i + th.framesToOpen <= n {
      assert forall k :: i <= k < i + th.framesToOpen ==> more[k] == levels[k];
      assert LoudWindow(th, levels, i);
      HeldOn(th, frame, d, n, level, i);
    } else {
      NewestHeld(th, frame, levels, level, d);
      var e := TrackStep(th, frame, d, n, level);
      assert AllRuns(e)[|e.closed|] == Run(e.open.value, n);
    }
  }

  /** The detector's spans over any run of levels. */
  lemma {:induction false} SpansAreSound(th: Thresholds, frame: real, levels: seq<real>)
    requires Sane(th, frame)
    ensures Sound(th, frame, levels, Tracked(th, frame, levels))
  {
    if levels != [] {
      var n := |levels| - 1;
      var before, d := levels[..n], Tracked(th, frame, levels[..n]);
      assert before + [levels[n]] == levels;
      SpansAreSound(th, frame, before);
      StillPending(th, frame, before, levels[n], d);
      StillSpans(th, frame, before, levels[n], d);
      StillApart(th, frame, before, levels[n], d);
      StillEnded(th, frame, before, levels[n], d);
      assert d.open.Some? ==> AllRuns(d)[|d.closed|] == Run(d.open.value, d.last.value);
      forall i: nat | LoudWindow(th, levels, i) ensures Holds(th, AllRuns(Tracked(th, frame, levels)), i) {
        StillHeld(th, frame, before, levels[n], d, i);
      }
    }
  }

  // How much speech counts since a mark.

  /** Frame `i` lies in one of these spans. */
  ghost predicate Covered(runs: seq<Run>, i: nat) {
    exists k :: 0 <= k < |runs| && runs[k].first <= i <= runs[k].last
  }

  /** How many of the frames from `from` up to `to` are loud, in a span, and start at or after the mark. */
  ghost function Heard(th: Thresholds, start: real, frame: real, levels: seq<real>, mark: real, runs: seq<Run>,
                       from: nat, to: nat): nat
    requires from <= to <= |levels|
  {
    if from == to then 0
    else
      var i := to - 1;
      Heard(th, start, frame, levels, mark, runs, from, i)
      + if levels[i] >= th.loud && Covered(runs, i) && TimeOf(start, frame, i) >= mark then 1 else 0
  }

  /** How many of those frames start at or after the mark. */
  function After(start: real, frame: real, mark: real, from: nat, to: nat): nat
    requires from <= to
  {
    if from == to then 0
    else After(start, frame, mark, from, to - 1) + if TimeOf(start, frame, to - 1) >= mark then 1 else 0
  }

  /** Frames covered alike, where they are loud, count alike. */
  lemma {:induction false} HeardAlike(th: Thresholds, start: real, frame: real, levels: seq<real>, more: seq<real>, mark: real,
                                      was: seq<Run>, runs: seq<Run>, from: nat, to: nat)
    requires from <= to <= |levels| <= |more| && levels == more[..|levels|]
    requires forall i: nat :: from <= i < to && levels[i] >= th.loud ==> (Covered(was, i) <==> Covered(runs, i))
    ensures Heard(th, start, frame, levels, mark, was, from, to) == Heard(th, start, frame, more, mark, runs, from, to)
  {
    if from < to {
      assert levels[to - 1] == more[to - 1];
      HeardAlike(th, start, frame, levels, more, mark, was, runs, from, to - 1);
    }
  }

  /** Over a covered loud run, every frame since the mark counts. */
  lemma {:induction false} HeardThrough(th: Thresholds, start: real, frame: real, levels: seq<real>, mark: real,
                                        runs: seq<Run>, from: nat, mid: nat, to: nat)
    requires from <= mid <= to <= |levels|
    requires forall i: nat :: mid <= i < to ==> levels[i] >= th.loud && Covered(runs, i)
    ensures Heard(th, start, frame, levels, mark, runs, from, to)
         == Heard(th, start, frame, levels, mark, runs, from, mid) + After(start, frame, mark, mid, to)
  {
    if mid < to {
      HeardThrough(th, start, frame, levels, mark, runs, from, mid, to - 1);
    }
  }

  /** Over frames outside every span nothing counts. */
  lemma {:induction false} HeardNothing(th: Thresholds, start: real, frame: real, levels: seq<real>, mark: real,
                                        runs: seq<Run>, from: nat, mid: nat, to: nat)
    requires from <= mid <= to <= |levels|
    requires forall i: nat :: mid <= i < to ==> !Covered(runs, i)
    ensures Heard(th, start, frame, levels, mark, runs, from, to) == Heard(th, start, frame, levels, mark, runs, from, mid)
  {
    if mid < to {
      HeardNothing(th, start, frame, levels, mark, runs, from, mid, to - 1);
    }
  }

  /** The step that turns the pending loud run into a span. */
  predicate Opens(th: Thresholds, d: Track, level: real) {
    d.open.None? && level >= th.loud && d.candidate + 1 >= th.framesToOpen
  }

  /** A step adds a span, lengthens the open one, or leaves the spans alone. */
  lemma RunsStep(th: Thresholds, frame: real, d: Track, n: nat, level: real)
    requires Fits(d, n)
    ensures var was, runs := AllRuns(d), AllRuns(TrackStep(th, frame, d, n, level));
      if Opens(th, d, level) then was == d.closed && runs == was + [Run(n - d.candidate, n)]
      else if d.open.Some? && level >= th.quiet
      then was == d.closed + [Run(d.open.value, d.last.value)] && runs == d.closed + [Run(d.open.value, n)]
      else runs == was
  {
  }

  lemma CoveredSnoc(runs: seq<Run>, r: Run, i: nat)
    ensures Covered(runs + [r], i) <==> Covered(runs, i) || r.first <= i <= r.last
  {
    var more := runs + [r];
    if Covered(runs, i) {
      var k :| 0 <= k < |runs| && runs[k].first <= i <= runs[k].last;
      assert more[k] == runs[k];
    }
    if r.first <= i <= r.last {
      assert more[|runs|] == r;
    }
  }

  /** A loud frame changes from outside every span to inside one only when its own run opens a span. */
  lemma CoveredStep(th: Thresholds, frame: real, levels: seq<real>, level: real, d: Track, i: nat)
    requires Sane(th, frame) && Pending(th, frame, levels, d) && i < |levels| && levels[i] >= th.loud
    ensures Covered(AllRuns(TrackStep(th, frame, d, |levels|, level)), i)
       <==> Covered(AllRuns(d), i) || (Opens(th, d, level) && i >= |levels| - d.candidate)
  {
    var n := |levels|;
    RunsStep(th, frame, d, n, level);
    if Opens(th, d, level) {
      CoveredSnoc(d.closed, Run(n - d.candidate, n), i);
    } else if d.open.Some? {
      CoveredSnoc(d.closed, Run(d.open.value, d.last.value), i);
      CoveredSnoc(d.closed, Run(d.open.value, n), i);
    }
  }

  lemma NewestCovered(th: Thresholds, frame: real, levels: seq<real>, level: real, d: Track)
    requires Sane(th, frame) && Sound(th, frame, levels, d)
    ensures Covered(AllRuns(TrackStep(th, frame, d, |levels|, level)), |levels|)
       <==> Opens(th, d, level) || (d.open.Some? && level >= th.quiet)
  {
    var n, was := |levels|, AllRuns(d);
    RunsStep(th, frame, d, n, level);
    assert !Covered(was, n) by {
      assert forall k :: 0 <= k < |was| ==> IsSpan(th, frame, levels, was[k]) && was[k].last < n;
    }
    if Opens(th, d, level) {
      CoveredSnoc(was, Run(n - d.candidate, n), n);
    } else if d.open.Some? {
      CoveredSnoc(d.closed, Run(d.open.value, n), n);
    }
  }

  /** While no span is open, the frames of the pending run are outside every span. */
  lemma PendingUncovered(th: Thresholds, frame: real, levels: seq<real>, d: Track, i: nat)
    requires Pending(th, frame, levels, d) && d.open.None? && i >= |levels| - d.candidate
    ensures !Covered(AllRuns(d), i)
  {
    var was := AllRuns(d);
    assert forall k :: 0 <= k < |was| ==> was[k] == d.closed[k] && Apart(th, frame, was[k], Run(|levels| - d.candidate, |levels|));
  }

  /** A total that is so many frames, and a carry if that has become speech. */
  predicate Total(frame: real, spoken: real, heard: nat, carried: bool, carry: real) {
    spoken == Length(frame, heard) + if carried then carry else 0.0
  }

  lemma TotalOn(frame: real, spoken: real, heard: nat, carried: bool, carry: real, counted: nat)
    requires Total(frame, spoken, heard, carried, carry)
    ensures Total(frame, spoken + Length(frame, counted), heard + counted, carried, carry)
  {
    LengthAdds(frame, heard, counted);
  }

  lemma TotalOpening(frame: real, spoken: real, heard: nat, carried: bool, carry: real, counted: nat,
                     pending: real, after: nat, waiting: bool)
    requires Total(frame, spoken, heard, carried, carry) && Total(frame, pending, after, waiting, carry)
    requires carry != 0.0 && waiting ==> !carried
    ensures Total(frame, spoken + (pending + Length(frame, counted)), heard + after + counted, carried || waiting, carry)
  {
    LengthAdds(frame, after, counted);
    LengthAdds(frame, heard, after + counted);
  }

  /** The frame before the mark has become speech. */
  ghost predicate Carried(runs: seq<Run>, m: nat) {
    m > 0 && Covered(runs, m - 1)
  }

  /** What the pending run would add, as a count of frames. */
  predicate PendingCounts(start: real, frame: real, n: nat, mark: real, m: nat, carry: real, pending: real, candidate: nat)
    requires m <= n && candidate <= n
  {
    Total(frame, pending, After(start, frame, mark, Max(m, n - candidate), n), n - candidate < m, carry)
  }

  ghost predicate Counts(th: Thresholds, start: real, frame: real, levels: seq<real>, mark: real, m: nat, carry: real,
                         a: Activity, d: Track)
    requires m <= |levels| && d.candidate <= |levels|
  {
    && a.mark == Some(mark)
    && (carry == 0.0 || (m > 0 && levels[m - 1] >= th.loud))
    && Total(frame, a.spoken, Heard(th, start, frame, levels, mark, AllRuns(d), m, |levels|), Carried(AllRuns(d), m), carry)
    && PendingCounts(start, frame, |levels|, mark, m, carry, a.candidateSpoken, d.candidate)
  }

  /** One when frame `n` is loud and starts at or after the mark. */
  function Counted(th: Thresholds, start: real, frame: real, n: nat, level: real, mark: real): nat {
    if level >= th.loud && TimeOf(start, frame, n) >= mark then 1 else 0
  }

  /** Opening a span, the pending frames and the newest one count from now on. */
  lemma HeardOpening(th: Thresholds, start: real, frame: real, levels: seq<real>, level: real, mark: real, m: nat, d: Track)
    requires Sane(th, frame) && Sound(th, frame, levels, d) && m <= |levels| && Opens(th, d, level)
    ensures var n := |levels|;
      Heard(th, start, frame, levels + [level], mark, AllRuns(TrackStep(th, frame, d, n, level)), m, n + 1)
      == Heard(th, start, frame, levels, mark, AllRuns(d), m, n)
       + After(start, frame, mark, Max(m, n - d.candidate), n) + Counted(th, start, frame, n, level, mark)
  {
    var n, more, was, runs := |levels|, levels + [level], AllRuns(d), AllRuns(TrackStep(th, frame, d, |levels|, level));
    var mid := Max(m, n - d.candidate);
    forall i: nat | i < n && levels[i] >= th.loud ensures Covered(runs, i) <==> Covered(was, i) || i >= n - d.candidate {
      CoveredStep(th, frame, levels, level, d, i);
    }
    forall i: nat | mid <= i < n ensures !Covered(was, i) && more[i] >= th.loud {
      PendingUncovered(th, frame, levels, d, i);
    }
    NewestCovered(th, frame, levels, level, d);
    HeardAlike(th, start, frame, levels, more, mark, was, runs, m, mid);
    HeardThrough(th, start, frame, more, mark, runs, m, mid, n);
    HeardNothing(th, start, frame, levels, mark, was, m, mid, n);
  }

  /** Otherwise only the newest frame can, and only into an open span. */
  lemma HeardOn(th: Thresholds, start: real, frame: real, levels: seq<real>, level: real, mark: real, m: nat, d: Track)
    requires Sane(th, frame) && Sound(th, frame, levels, d) && m <= |levels| && !Opens(th, d, level)
    ensures var n := |levels|;
      Heard(th, start, frame, levels + [level], mark, AllRuns(TrackStep(th, frame, d, n, level)), m, n + 1)
      == Heard(th, start, frame, levels, mark, AllRuns(d), m, n)
       + if d.open.Some? then Counted(th, start, frame, n, level, mark) else 0
  {
    var n, more, was, runs := |levels|, levels + [level], AllRuns(d), AllRuns(TrackStep(th, frame, d, |levels|, level));
    forall i: nat | i < n && levels[i] >= th.loud ensures Covered(runs, i) <==> Covered(was, i) {
      CoveredStep(th, frame, levels, level, d, i);
    }
    NewestCovered(th, frame, levels, level, d);
    HeardAlike(th, start, frame, levels, more, mark, was, runs, m, n);
  }

  /** How the two running totals change with one more frame, which counts or does not. */
  lemma ObservedTotals(th: Thresholds, start: real, frame: real, a: Activity, d: Track, n: nat, level: real, mark: real)
    requires Sane(th, frame) && Tells(start, frame, a, d, n) && a.mark == Some(mark)
    ensures var b, counted := Observed(th, frame, a, TimeOf(start, frame, n), level), Counted(th, start, frame, n, level, mark);
      && b.mark == a.mark
      && b.spoken == a.spoken + (if Opens(th, d, level) then a.candidateSpoken + Length(frame, counted)
                                 else if d.open.Some? then Length(frame, counted) else 0.0)
      && b.candidateSpoken == (if d.open.None? && (level < th.loud || Opens(th, d, level)) then 0.0
                               else if d.open.None? then a.candidateSpoken + Length(frame, counted) else a.candidateSpoken)
  {
    assert Length(frame, 1) == frame;
  }

  /** What was pending at the mark becomes speech exactly when its run opens a span. */
  lemma CarriedStep(th: Thresholds, frame: real, levels: seq<real>, level: real, m: nat, d: Track)
    requires Sane(th, frame) && Pending(th, frame, levels, d) && 0 < m <= |levels| && levels[m - 1] >= th.loud
    ensures Carried(AllRuns(TrackStep(th, frame, d, |levels|, level)), m)
       <==> Carried(AllRuns(d), m) || (Opens(th, d, level) && |levels| - d.candidate < m)
    ensures d.open.None? && |levels| - d.candidate < m ==> !Carried(AllRuns(d), m)
  {
    CoveredStep(th, frame, levels, level, d, m - 1);
    if d.open.None? && |levels| - d.candidate < m {
      PendingUncovered(th, frame, levels, d, m - 1);
    }
  }

  /** The total after one more frame: what it takes in, and the count of frames and the carry that is. */
  lemma SpokenStep(th: Thresholds, start: real, frame: real, levels: seq<real>, level: real, mark: real, m: nat, carry: real,
                   a: Activity, d: Track)
    requires Sane(th, frame) && Sound(th, frame, levels, d) && m <= |levels|
    requires Counts(th, start, frame, levels, mark, m, carry, a, d)
    ensures var n, counted := |levels|, Counted(th, start, frame, |levels|, level, mark);
      var runs := AllRuns(TrackStep(th, frame, d, n, level));
      Total(frame, a.spoken + (if Opens(th, d, level) then a.candidateSpoken + Length(frame, counted)
                               else if d.open.Some? then Length(frame, counted) else 0.0),
            Heard(th, start, frame, levels + [level], mark, runs, m, n + 1), Carried(runs, m), carry)
  {
    var n, counted := |levels|, Counted(th, start, frame, |levels|, level, mark);
    var was, runs := AllRuns(d), AllRuns(TrackStep(th, frame, d, |levels|, level));
    var heard := Heard(th, start, frame, levels, mark, was, m, n);
    if carry != 0.0 {
      CarriedStep(th, frame, levels, level, m, d);
    }
    if Opens(th, d, level) {
      HeardOpening(th, start, frame, levels, level, mark, m, d);
      TotalOpening(frame, a.spoken, heard, Carried(was, m), carry, counted, a.candidateSpoken,
                   After(start, frame, mark, Max(m, n - d.candidate), n), n - d.candidate < m);
    } else {
      HeardOn(th, start, frame, levels, level, mark, m, d);
      TotalOn(frame, a.spoken, heard, Carried(was, m), carry, if d.open.Some? then counted else 0);
    }
  }

  lemma PendingStep(th: Thresholds, start: real, frame: real, a: Activity, d: Track, n: nat, level: real, mark: real, m: nat,
                    carry: real)
    requires Sane(th, frame) && m <= n && Tells(start, frame, a, d, n) && a.mark == Some(mark)
    requires PendingCounts(start, frame, n, mark, m, carry, a.candidateSpoken, d.candidate)
    ensures PendingCounts(start, frame, n + 1, mark, m, carry, Observed(th, frame, a, TimeOf(start, frame, n), level).candidateSpoken,
                          TrackStep(th, frame, d, n, level).candidate)
  {
    ObservedTotals(th, start, frame, a, d, n, level, mark);
    LengthAdds(frame, After(start, frame, mark, Max(m, n - d.candidate), n), Counted(th, start, frame, n, level, mark));
  }

  /** What counts as speech since the last mark, made after `p` inputs; `carry` was already pending then. */
  ghost predicate HeardSince(th: Thresholds, start: real, frame: real, inputs: seq<Input>, p: nat)
    requires p < |inputs| && inputs[p].MarkAt?
  {
    var levels, m := Levels(inputs), |Levels(inputs[..p])|;
    && m <= |levels|
    && Counts(th, start, frame, levels, inputs[p].time, m, Fed(th, start, frame, inputs[..p]).candidateSpoken,
           Fed(th, start, frame, inputs), Tracked(th, frame, levels))
  }

  lemma CountsAtMark(th: Thresholds, start: real, frame: real, levels: seq<real>, a: Activity, d: Track, mark: real)
    requires Sane(th, frame) && Sound(th, frame, levels, d) && Tells(start, frame, a, d, |levels|)
    ensures Counts(th, start, frame, levels, mark, |levels|, a.candidateSpoken, Marked(a, mark), d)
  {
    if d.candidate > 0 {
      assert levels[|levels| - 1] >= th.loud;
      PendingUncovered(th, frame, levels, d, |levels| - 1);
    }
  }

  lemma CountsStep(th: Thresholds, start: real, frame: real, levels: seq<real>, level: real, mark: real, m: nat, carry: real,
                   a: Activity, d: Track)
    requires Sane(th, frame) && Sound(th, frame, levels, d) && m <= |levels|
    requires Tells(start, frame, a, d, |levels|) && Counts(th, start, frame, levels, mark, m, carry, a, d)
    ensures Counts(th, start, frame, levels + [level], mark, m, carry,
                   Observed(th, frame, a, TimeOf(start, frame, |levels|), level), TrackStep(th, frame, d, |levels|, level))
  {
    SpokenStep(th, start, frame, levels, level, mark, m, carry, a, d);
    PendingStep(th, start, frame, a, d, |levels|, level, mark, m, carry);
    ObservedTotals(th, start, frame, a, d, |levels|, level, mark);
  }

  lemma SinceMarkNow(th: Thresholds, start: real, frame: real, inputs: seq<Input>, p: nat)
    requires Sane(th, frame) && p + 1 == |inputs| && inputs[p].MarkAt?
    ensures HeardSince(th, start, frame, inputs, p)
  {
    var levels := Levels(inputs[..p]);
    assert Levels(inputs) == levels;
    FedTells(th, start, frame, inputs[..p]);
    SpansAreSound(th, frame, levels);
    CountsAtMark(th, start, frame, levels, Fed(th, start, frame, inputs[..p]), Tracked(th, frame, levels), inputs[p].time);
  }

  lemma SinceMarkLater(th: Thresholds, start: real, frame: real, inputs: seq<Input>, p: nat)
    requires Sane(th, frame) && p + 1 < |inputs| && inputs[p].MarkAt? && inputs[|inputs| - 1].Frame?
    requires HeardSince(th, start, frame, inputs[..|inputs| - 1], p)
    ensures HeardSince(th, start, frame, inputs, p)
  {
    var n := |inputs| - 1;
    var before, levels := inputs[..n], Levels(inputs[..n]);
    assert before[..p] == inputs[..p];
    FedTells(th, start, frame, before);
    SpansAreSound(th, frame, levels);
    FedFrame(th, start, frame, inputs);
    CountsStep(th, start, frame, levels, inputs[n].level, inputs[p].time, |Levels(inputs[..p])|,
               Fed(th, start, frame, inputs[..p]).candidateSpoken, Fed(th, start, frame, before), Tracked(th, frame, levels));
  }

  lemma {:induction false} CountsSinceMark(th: Thresholds, start: real, frame: real, inputs: seq<Input>, p: nat)
    requires Sane(th, frame) && p < |inputs| && inputs[p].MarkAt?
    requires forall q :: p < q < |inputs| ==> inputs[q].Frame?
    ensures HeardSince(th, start, frame, inputs, p)
  {
    if p + 1 == |inputs| {
      SinceMarkNow(th, start, frame, inputs, p);
    } else {
      var before := inputs[..|inputs| - 1];
      assert before[..p] == inputs[..p];
      CountsSinceMark(th, start, frame, before, p);
      SinceMarkLater(th, start, frame, inputs, p);
    }
  }

  /** What is pending at any moment is shorter than the run that opens a span. */
  lemma CarryBound(th: Thresholds, start: real, frame: real, inputs: seq<Input>)
    requires Sane(th, frame)
    ensures 0.0 <= Fed(th, start, frame, inputs).candidateSpoken <= Length(frame, th.framesToOpen - 1)
  {
    var levels := Levels(inputs);
    FedTells(th, start, frame, inputs);
    SpansAreSound(th, frame, levels);
    LengthGrows(frame, Tracked(th, frame, levels).candidate, th.framesToOpen - 1);
  }

  /**
   Speech counted since the last mark: the frame length times the loud frames inside spans seen since then that
   start at or after it, and what was pending when the mark was made if its run went on to open a span.
   */
  lemma SpokenSinceMark(th: Thresholds, start: real, frame: real, inputs: seq<Input>, p: nat)
    requires Sane(th, frame) && p < |inputs| && inputs[p].MarkAt?
    requires forall q :: p < q < |inputs| ==> inputs[q].Frame?
    ensures var levels, m, carry := Levels(inputs), |Levels(inputs[..p])|, Fed(th, start, frame, inputs[..p]).candidateSpoken;
      var runs := AllRuns(Tracked(th, frame, levels));
      && m <= |levels| && 0.0 <= carry <= Length(frame, th.framesToOpen - 1)
      && Fed(th, start, frame, inputs).spoken
         == Length(frame, Heard(th, start, frame, levels, inputs[p].time, runs, m, |levels|))
          + if m > 0 && Covered(runs, m - 1) then carry else 0.0
  {
    CarryBound(th, start, frame, inputs[..p]);
    CountsSinceMark(th, start, frame, inputs, p);
  }

  /** The detector's spans, over any levels and any marks: `Sound` of the frames behind them. */
  lemma SpansOfAnyRun(th: Thresholds, start: real, frame: real, inputs: seq<Input>)
    requires Sane(th, frame)
    ensures var levels := Levels(inputs);
      && Sound(th, frame, levels, Tracked(th, frame, levels))
      && SpansSoFar(Fed(th, start, frame, inputs)) == SpansOf(start, frame, AllRuns(Tracked(th, frame, levels)))
  {
    var levels := Levels(inputs);
    FedTells(th, start, frame, inputs);
    SpansAreSound(th, frame, levels);
    SpansTold(start, frame, Fed(th, start, frame, inputs), Tracked(th, frame, levels), |levels|);
  }

  /** No run goes past the last active frame. */
  predicate Latest(runs: seq<Run>, last: Option<nat>) {
    forall k :: 0 <= k < |runs| ==> last.Some? && runs[k].last <= last.value
  }

  lemma {:induction false} LastIsLatest(th: Thresholds, frame: real, levels: seq<real>)
    ensures var d := Tracked(th, frame, levels);
      Latest(AllRuns(d), d.last)
  {
    if levels != [] {
      var n := |levels| - 1;
      var was := Tracked(th, frame, levels[..n]);
      LastIsLatest(th, frame, levels[..n]);
      RunsStep(th, frame, was, n, levels[n]);
      var d := TrackStep(th, frame, was, n, levels[n]);
      assert forall k :: 0 <= k < |was.closed| ==> AllRuns(was)[k] == was.closed[k];
      assert Latest(AllRuns(d), d.last);
    }
  }

  lemma SpanEndsByLast(start: real, frame: real, a: Activity, d: Track, n: nat, k: nat)
    requires frame > 0.0 && Tells(start, frame, a, d, n) && Latest(AllRuns(d), d.last) && k < |AllRuns(d)|
    ensures a.activeEnd.Some? && SpanOf(start, frame, AllRuns(d)[k]).end <= a.activeEnd.value
  {
    LengthGrows(frame, AllRuns(d)[k].last + 1, d.last.value + 1);
  }

  /** The bot has been quiet, as the detector counts it, since the end of every span. */
  lemma QuietSinceEverySpan(th: Thresholds, start: real, frame: real, inputs: seq<Input>, k: nat, now: real)
    requires frame > 0.0 && k < |SpansSoFar(Fed(th, start, frame, inputs))|
    ensures var a := Fed(th, start, frame, inputs);
      QuietFor(a, now).Some? && SpansSoFar(a)[k].end <= now - QuietFor(a, now).value
  {
    var levels := Levels(inputs);
    var a, d := Fed(th, start, frame, inputs), Tracked(th, frame, levels);
    FedTells(th, start, frame, inputs);
    LastIsLatest(th, frame, levels);
    SpansTold(start, frame, a, d, |levels|);
    SpanEndsByLast(start, frame, a, d, |levels|, k);
  }

  /** The newest run, if there is one, ends on the last active frame. */
  predicate Newest(runs: seq<Run>, last: Option<nat>) {
    if runs == [] then last.None? else last == Some(runs[|runs| - 1].last)
  }

  lemma {:induction false} LastIsNewest(th: Thresholds, frame: real, levels: seq<real>)
    ensures var d := Tracked(th, frame, levels);
      Newest(AllRuns(d), d.last)
  {
    if levels != [] {
      var n := |levels| - 1;
      LastIsNewest(th, frame, levels[..n]);
      RunsStep(th, frame, Tracked(th, frame, levels[..n]), n, levels[n]);
    }
  }

  /** The bot has been quiet, as the detector counts it, for exactly as long as its newest span is over. */
  lemma QuietSinceTheNewest(th: Thresholds, start: real, frame: real, inputs: seq<Input>, now: real)
    requires frame > 0.0
    ensures var a, runs := Fed(th, start, frame, inputs), AllRuns(Tracked(th, frame, Levels(inputs)));
      QuietFor(a, now) == if runs == [] then None else Some(now - SpanOf(start, frame, runs[|runs| - 1]).end)
  {
    FedTells(th, start, frame, inputs);
    LastIsNewest(th, frame, Levels(inputs));
  }

  /** A frame that starts at the mark or later is observed as if there were none. */
  lemma ObservedUnmarked(th: Thresholds, frame: real, a: Activity, b: Activity, mark: real, time: real, level: real)
    requires b.mark == Some(mark) && a == b.(mark := None) && time >= mark
    ensures var after := Observed(th, frame, b, time, level);
      after.mark == Some(mark) && Observed(th, frame, a, time, level) == after.(mark := None)
  {
  }

  lemma FedOneMore(th: Thresholds, start: real, frame: real, before: seq<Input>, level: real)
    ensures var more := before + [Frame(level)];
      && Levels(more) == Levels(before) + [level]
      && Fed(th, start, frame, more)
         == Observed(th, frame, Fed(th, start, frame, before), TimeOf(start, frame, |Levels(before)|), level)
  {
    var more := before + [Frame(level)];
    assert more[..|more| - 1] == before;
    FedFrame(th, start, frame, more);
  }

  ghost predicate CountsFromTheStart(th: Thresholds, start: real, frame: real, inputs: seq<Input>, marked: seq<Input>) {
    && Levels(marked) == Levels(inputs)
    && Fed(th, start, frame, inputs) == Fed(th, start, frame, marked).(mark := None)
    && Fed(th, start, frame, marked).mark == Some(start)
  }

  lemma CountsOn(th: Thresholds, start: real, frame: real, inputs: seq<Input>, marked: seq<Input>, level: real)
    requires frame > 0.0 && CountsFromTheStart(th, start, frame, inputs, marked)
    ensures CountsFromTheStart(th, start, frame, inputs + [Frame(level)], marked + [Frame(level)])
  {
    FedOneMore(th, start, frame, inputs, level);
    FedOneMore(th, start, frame, marked, level);
    LengthGrows(frame, 0, |Levels(inputs)|);
    ObservedUnmarked(th, frame, Fed(th, start, frame, inputs), Fed(th, start, frame, marked), start,
                     TimeOf(start, frame, |Levels(inputs)|), level);
  }

  /** Before any mark the detector counts as it would from a mark where its frames begin. */
  lemma {:induction false} UnmarkedIsMarkedAtTheStart(th: Thresholds, start: real, frame: real, inputs: seq<Input>)
    requires frame > 0.0 && forall i :: 0 <= i < |inputs| ==> inputs[i].Frame?
    ensures CountsFromTheStart(th, start, frame, inputs, [MarkAt(start)] + inputs)
  {
    if inputs == [] {
      var marked := [MarkAt(start)] + inputs;
      assert marked[..0] == [] && marked == [MarkAt(start)];
    } else {
      var before, last := inputs[..|inputs| - 1], inputs[|inputs| - 1];
      assert inputs == before + [last] && [MarkAt(start)] + inputs == [MarkAt(start)] + before + [last];
      UnmarkedIsMarkedAtTheStart(th, start, frame, before);
      CountsOn(th, start, frame, before, [MarkAt(start)] + before, last.level);
    }
  }

  /** So without a mark every loud frame inside a span counts. */
  lemma SpokenWithoutAMark(th: Thresholds, start: real, frame: real, inputs: seq<Input>)
    requires Sane(th, frame) && forall i :: 0 <= i < |inputs| ==> inputs[i].Frame?
    ensures var levels := Levels(inputs);
      Fed(th, start, frame, inputs).spoken
      == Length(frame, Heard(th, start, frame, levels, start, AllRuns(Tracked(th, frame, levels)), 0, |levels|))
  {
    var marked := [MarkAt(start)] + inputs;
    UnmarkedIsMarkedAtTheStart(th, start, frame, inputs);
    forall q | 0 < q < |marked| ensures marked[q].Frame? {
      assert marked[q] == inputs[q - 1];
    }
    SpokenSinceMark(th, start, frame, marked, 0);
    assert Levels(marked[..0]) == [];
  }

  /** The caller may speak exactly once enough has been said and the newest span, if any, has been over long enough. */
  lemma ReadyOnceSaidAndQuiet(th: Thresholds, start: real, frame: real, inputs: seq<Input>, now: real, minimum: real, quiet: real)
    requires frame > 0.0
    ensures var a, runs := Fed(th, start, frame, inputs), AllRuns(Tracked(th, frame, Levels(inputs)));
      Ready(a, now, minimum, quiet)
      <==> a.spoken + 0.000001 >= minimum && (runs == [] || SpanOf(start, frame, runs[|runs| - 1]).end + quiet <= now + 0.000001)
  {
    FedTells(th, start, frame, inputs);
    LastIsNewest(th, frame, Levels(inputs));
  }
}

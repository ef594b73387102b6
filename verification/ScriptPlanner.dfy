/**
 The scripted caller, tick by tick: it waits for the bot to speak and fall quiet, says a line frame by frame,
 pauses inside it, and otherwise sends silence.
 */
module ScriptPlanner {
  import opened Sequences
  import opened DownlinkActivity

  const FRAME_MILLISECONDS := 20
  const FRAME_BYTES := 160
  const FRAME_SECONDS := 0.02

  datatype WaitFor = Greeting | Reply

  datatype LineAudio = LineAudio(lineId: string, waitFor: WaitFor, segments: seq<seq<byte>>, pauses: seq<int>)

  datatype CallTiming = CallTiming(greetingTimeout: real, replyTimeout: real, quietBefore: real, minimumSpeech: real)

  /** The lines, the waits, and the payload of a silent frame. */
  datatype Script = Script(lines: seq<LineAudio>, timing: CallTiming, silence: seq<byte>)

  datatype PlannedFrame = PlannedFrame(payload: seq<byte>, marker: bool)

  datatype EventKind = LineStarted | SegmentStarted | SegmentEnded | LineEnded | WaitTimedOut | Overlap

  datatype TimelineEvent = TimelineEvent(time: real, kind: EventKind, lineId: string)

  datatype Phase = Waiting | Speaking | Pausing | Finished | Stalled

  /** The planner's fields. */
  datatype Plan = Plan(phase: Phase, line: nat, waitStarted: real, segment: nat, frame: nat, pauseLeft: int,
                       overlapped: bool, timeline: seq<TimelineEvent>)

  // Which lines can be played.

  datatype Fault = NoAudio | PausesDoNotFit | NotWholeFrames(index: nat) | PausesAfterLast | PauseNotWhole

  predicate WholeFrames(segment: seq<byte>) {
    segment != [] && |segment| % FRAME_BYTES == 0
  }

  predicate WholePause(pause: int) {
    pause >= 0 && pause % FRAME_MILLISECONDS == 0
  }

  predicate SegmentsFit(line: LineAudio) {
    && line.segments != [] && |line.pauses| == |line.segments|
    && forall i :: 0 <= i < |line.segments| ==> WholeFrames(line.segments[i])
  }

  predicate Playable(line: LineAudio) {
    && SegmentsFit(line)
    && line.pauses[|line.pauses| - 1] == 0
    && forall i :: 0 <= i < |line.pauses| ==> WholePause(line.pauses[i])
  }

  method CheckLine(line: LineAudio) returns (fault: Option<Fault>)
    ensures fault == None <==> Playable(line)
    ensures fault == Some(NoAudio) <==> line.segments == []
    ensures fault == Some(PausesDoNotFit) <==> line.segments != [] && |line.pauses| != |line.segments|
    ensures forall i: nat :: fault == Some(NotWholeFrames(i)) <==> (
      && |line.pauses| == |line.segments| && i < |line.segments| && !WholeFrames(line.segments[i])
      && forall j :: 0 <= j < i ==> WholeFrames(line.segments[j]))
    ensures fault == Some(PausesAfterLast) <==> (
      && SegmentsFit(line) && line.pauses[|line.pauses| - 1] != 0)
    ensures fault == Some(PauseNotWhole) <==> (
      && SegmentsFit(line) && line.pauses[|line.pauses| - 1] == 0
      && exists i :: 0 <= i < |line.pauses| && !WholePause(line.pauses[i]))
  {
    if |line.segments| == 0 {
      return Some(NoAudio);
    }
    if |line.pauses| != |line.segments| {
      return Some(PausesDoNotFit);
    }
    for index := 0 to |line.segments|
      invariant forall j :: 0 <= j < index ==> WholeFrames(line.segments[j])
    {
      var segment := line.segments[index];
      if |segment| == 0 || |segment| % FRAME_BYTES != 0 {
        return Some(NotWholeFrames(index));
      }
    }
    if line.pauses[|line.pauses| - 1] != 0 {
      return Some(PausesAfterLast);
    }
    for index := 0 to |line.pauses|
      invariant forall j :: 0 <= j < index ==> WholePause(line.pauses[j])
    {
      var pause := line.pauses[index];
      if pause < 0 || pause % FRAME_MILLISECONDS != 0 {
        return Some(PauseNotWhole);
      }
    }
    return None;
  }

  // One tick.

  predicate Good(s: Script) {
    |s.silence| == FRAME_BYTES && forall i :: 0 <= i < |s.lines| ==> Playable(s.lines[i])
  }

  /** The plan points inside its script. */
  predicate ValidPlan(s: Script, p: Plan) {
    && p.line <= |s.lines| && (p.phase == Finished <==> p.line == |s.lines|)
    && (p.phase == Speaking ==>
      && p.segment < |s.lines[p.line].segments|
      && p.frame * FRAME_BYTES < |s.lines[p.line].segments[p.segment]|)
    && (p.phase == Pausing ==> p.segment + 1 < |s.lines[p.line].segments| && p.pauseLeft > 0)
  }

  function Begun(s: Script, startTime: real): Plan {
    Plan(if s.lines == [] then Finished else Waiting, 0, startTime, 0, 0, 0, false, [])
  }

  function Recorded(s: Script, p: Plan, time: real, kind: EventKind): Plan
    requires p.line < |s.lines|
  {
    p.(timeline := p.timeline + [TimelineEvent(time, kind, s.lines[p.line].lineId)])
  }

  function Timeout(s: Script, line: nat): real
    requires line < |s.lines|
  {
    if s.lines[line].waitFor == Greeting then s.timing.greetingTimeout else s.timing.replyTimeout
  }

  predicate MaySpeak(s: Script, a: Activity, now: real) {
    Ready(a, now, s.timing.minimumSpeech, s.timing.quietBefore)
  }

  function Waited(s: Script, p: Plan, a: Activity, now: real): Plan
    requires p.line < |s.lines|
  {
    if MaySpeak(s, a, now)
    then Recorded(s, p, now, LineStarted).(phase := Speaking, segment := 0, frame := 0, overlapped := false)
    else if now - p.waitStarted >= Timeout(s, p.line) - TOLERANCE
    then Recorded(s, p, now, WaitTimedOut).(phase := Stalled)
    else p
  }

  function Noted(s: Script, p: Plan, a: Activity, now: real): Plan
    requires p.line < |s.lines|
  {
    if !p.overlapped && a.activeEnd.Some? && now - a.activeEnd.value <= 0.0
    then Recorded(s, p, now, Overlap).(overlapped := true)
    else p
  }

  /** The last segment is said: the next line, if any, waits from here. */
  function LineOver(s: Script, p: Plan, end: real): Plan
    requires p.line < |s.lines|
  {
    var q := Recorded(s, p, end, LineEnded);
    if p.line + 1 >= |s.lines| then q.(line := p.line + 1, phase := Finished)
    else q.(line := p.line + 1, phase := Waiting, waitStarted := end)
  }

  predicate LastSegment(s: Script, p: Plan)
    requires p.line < |s.lines|
  {
    p.segment + 1 >= |s.lines[p.line].segments|
  }

  function SegmentOver(s: Script, p: Plan, end: real): Plan
    requires Good(s) && p.line < |s.lines| && p.segment < |s.lines[p.line].segments|
  {
    var q := Recorded(s, p, end, SegmentEnded);
    if LastSegment(s, p) then LineOver(s, q, end)
    else
      var left := s.lines[p.line].pauses[p.segment] / FRAME_MILLISECONDS;
      if left > 0 then q.(pauseLeft := left, phase := Pausing)
      else q.(pauseLeft := left, segment := p.segment + 1, frame := 0)
  }

  /** A tick's new plan, what it sends, and when the detector is marked, if it is. */
  datatype Tick = Tick(plan: Plan, sent: PlannedFrame, mark: Option<real>)

  function Silent(s: Script): PlannedFrame {
    PlannedFrame(s.silence, false)
  }

  function Spoke(s: Script, p: Plan, a: Activity, now: real): Tick
    requires Good(s) && ValidPlan(s, p) && p.phase == Speaking
  {
    var q := Noted(s, p, a, now);
    var marker, segment, offset := p.frame == 0, s.lines[p.line].segments[p.segment], p.frame * FRAME_BYTES;
    var r := (if marker then Recorded(s, q, now, SegmentStarted) else q).(frame := p.frame + 1);
    var over := r.frame * FRAME_BYTES >= |segment|;
    Tick(if over then SegmentOver(s, r, now + FRAME_SECONDS) else r,
         PlannedFrame(segment[offset..offset + FRAME_BYTES], marker),
         if over && LastSegment(s, p) then Some(now + FRAME_SECONDS) else None)
  }

  function Paused(s: Script, p: Plan, a: Activity, now: real): Plan
    requires ValidPlan(s, p) && p.phase == Pausing
  {
    var q := Noted(s, p, a, now).(pauseLeft := p.pauseLeft - 1);
    if q.pauseLeft <= 0 then q.(segment := p.segment + 1, frame := 0, phase := Speaking) else q
  }

  /** The line starts, or gives up, before the tick's frame is chosen. */
  function Ticked(s: Script, p: Plan, a: Activity, now: real): Tick
    requires Good(s) && ValidPlan(s, p)
  {
    var q := if p.phase == Waiting then Waited(s, p, a, now) else p;
    match q.phase
    case Speaking => Spoke(s, q, a, now)
    case Pausing => Tick(Paused(s, q, a, now), Silent(s), None)
    case _ => Tick(q, Silent(s), None)
  }

  lemma SegmentOverKeepsValid(s: Script, p: Plan, end: real)
    requires Good(s) && p.line < |s.lines| && p.segment < |s.lines[p.line].segments| && p.phase == Speaking
    ensures ValidPlan(s, SegmentOver(s, p, end))
  {
    if !LastSegment(s, p) {
      assert WholeFrames(s.lines[p.line].segments[p.segment + 1]);
    }
  }

  lemma SpokeKeepsValid(s: Script, p: Plan, a: Activity, now: real)
    requires Good(s) && ValidPlan(s, p) && p.phase == Speaking
    ensures ValidPlan(s, Spoke(s, p, a, now).plan)
  {
    var q := Noted(s, p, a, now);
    var r := (if p.frame == 0 then Recorded(s, q, now, SegmentStarted) else q).(frame := p.frame + 1);
    SegmentOverKeepsValid(s, r, now + FRAME_SECONDS);
  }

  lemma WaitedKeepsValid(s: Script, p: Plan, a: Activity, now: real)
    requires Good(s) && ValidPlan(s, p) && p.phase == Waiting
    ensures ValidPlan(s, Waited(s, p, a, now))
  {
    assert WholeFrames(s.lines[p.line].segments[0]);
  }

  lemma TickKeepsValid(s: Script, p: Plan, a: Activity, now: real)
    requires Good(s) && ValidPlan(s, p)
    ensures ValidPlan(s, Ticked(s, p, a, now).plan)
  {
    var q := if p.phase == Waiting then Waited(s, p, a, now) else p;
    if p.phase == Waiting {
      WaitedKeepsValid(s, p, a, now);
    }
    if q.phase == Speaking {
      SpokeKeepsValid(s, q, a, now);
    } else if q.phase == Pausing {
      assert WholeFrames(s.lines[q.line].segments[q.segment + 1]);
    }
  }

  class ScriptPlanner {
    const script: Script
    const activity: Detector
    var phase: Phase
    var lineIndex: nat
    var waitStarted: real
    var segmentIndex: nat
    var frameIndex: nat
    var pauseFramesLeft: int
    var overlapped: bool
    var timeline: seq<TimelineEvent>

    ghost function View(): Plan
      reads this
    {
      Plan(phase, lineIndex, waitStarted, segmentIndex, frameIndex, pauseFramesLeft, overlapped, timeline)
    }

    ghost predicate Valid()
      reads this
    {
      Good(script) && ValidPlan(script, View())
    }

    constructor (script: Script, activity: Detector, startTime: real)
      requires Good(script)
      modifies activity
      ensures Valid() && this.script == script && this.activity == activity && View() == Begun(script, startTime)
      ensures activity.View() == Marked(old(activity.View()), startTime)
    {
      this.script, this.activity := script, activity;
      phase := if script.lines == [] then Finished else Waiting;
      lineIndex, waitStarted, segmentIndex, frameIndex, pauseFramesLeft := 0, startTime, 0, 0, 0;
      overlapped, timeline := false, [];
      new;
      activity.Mark(startTime);
    }

    /** A script with a line that cannot be played makes no planner, and leaves the detector alone. */
    static method Create(script: Script, activity: Detector, startTime: real) returns (planner: Option<ScriptPlanner>)
      requires |script.silence| == FRAME_BYTES
      modifies activity
      ensures planner.Some? <==> forall i :: 0 <= i < |script.lines| ==> Playable(script.lines[i])
      ensures planner.Some? ==> fresh(planner.value) && planner.value.Valid()
      ensures planner.Some? ==> planner.value.script == script && planner.value.activity == activity
      ensures planner.Some? ==> planner.value.View() == Begun(script, startTime)
      ensures activity.View() == if planner.Some? then Marked(old(activity.View()), startTime) else old(activity.View())
    {
      for index := 0 to |script.lines|
        invariant forall i :: 0 <= i < index ==> Playable(script.lines[i])
        invariant activity.View() == old(activity.View())
      {
        var fault := CheckLine(script.lines[index]);
        if fault.Some? {
          return None;
        }
      }
      var made := new ScriptPlanner(script, activity, startTime);
      return Some(made);
    }

    method NextFrame(now: real) returns (sent: PlannedFrame)
      requires Valid()
      modifies this, activity
      ensures Valid()
      ensures var tick := Ticked(script, old(View()), old(activity.View()), now);
        && View() == tick.plan && sent == tick.sent
        && activity.View() == if tick.mark.Some? then Marked(old(activity.View()), tick.mark.value) else old(activity.View())
    {
      TickKeepsValid(script, View(), activity.View(), now);
      if phase == Waiting {
        StartLineIfReady(now);
      }
      if phase == Speaking {
        sent := Speak(now);
      } else if phase == Pausing {
        sent := Pause(now);
      } else {
        sent := PlannedFrame(script.silence, false);
      }
    }

    method StartLineIfReady(now: real)
      requires Valid() && phase == Waiting
      modifies this
      ensures Valid() && View() == Waited(script, old(View()), activity.View(), now)
    {
      var line := script.lines[lineIndex];
      var ready := activity.ReadyToSpeak(now, script.timing.minimumSpeech, script.timing.quietBefore);
      if ready {
        Record(now, LineStarted);
        phase, segmentIndex, frameIndex, overlapped := Speaking, 0, 0, false;
        return;
      }
      var timeout := if line.waitFor == Greeting then script.timing.greetingTimeout else script.timing.replyTimeout;
      if now - waitStarted >= timeout - TOLERANCE {
        Record(now, WaitTimedOut);
        phase := Stalled;
      }
    }

    method Speak(now: real) returns (sent: PlannedFrame)
      requires Valid() && phase == Speaking
      modifies this, activity
      ensures var tick := Spoke(script, old(View()), old(activity.View()), now);
        && View() == tick.plan && sent == tick.sent
        && activity.View() == if tick.mark.Some? then Marked(old(activity.View()), tick.mark.value) else old(activity.View())
    {
      NoteOverlap(now);
      var segment := script.lines[lineIndex].segments[segmentIndex];
      var marker := frameIndex == 0;
      if marker {
        Record(now, SegmentStarted);
      }
      var offset := frameIndex * FRAME_BYTES;
      var payload := segment[offset..offset + FRAME_BYTES];
      frameIndex := frameIndex + 1;
      if frameIndex * FRAME_BYTES >= |segment| {
        EndSegment(now + FRAME_SECONDS);
      }
      return PlannedFrame(payload, marker);
    }

    method Pause(now: real) returns (sent: PlannedFrame)
      requires Valid() && phase == Pausing
      modifies this
      ensures View() == Paused(script, old(View()), activity.View(), now) && sent == Silent(script)
    {
      NoteOverlap(now);
      pauseFramesLeft := pauseFramesLeft - 1;
      if pauseFramesLeft <= 0 {
        segmentIndex := segmentIndex + 1;
        frameIndex := 0;
        phase := Speaking;
      }
      return PlannedFrame(script.silence, false);
    }

    method EndSegment(end: real)
      requires Good(script) && lineIndex < |script.lines| && segmentIndex < |script.lines[lineIndex].segments|
      modifies this, activity
      ensures View() == SegmentOver(script, old(View()), end)
      ensures activity.View()
           == if LastSegment(script, old(View())) then Marked(old(activity.View()), end) else old(activity.View())
    {
      var line := script.lines[lineIndex];
      Record(end, SegmentEnded);
      if segmentIndex + 1 < |line.segments| {
        pauseFramesLeft := line.pauses[segmentIndex] / FRAME_MILLISECONDS;
        if pauseFramesLeft > 0 {
          phase := Pausing;
        } else {
          segmentIndex := segmentIndex + 1;
          frameIndex := 0;
        }
        return;
      }
      Record(end, LineEnded);
      activity.Mark(end);
      lineIndex := lineIndex + 1;
      if lineIndex >= |script.lines| {
        phase := Finished;
      } else {
        phase := Waiting;
        waitStarted := end;
      }
    }

    method NoteOverlap(now: real)
      requires lineIndex < |script.lines|
      modifies this
      ensures View() == Noted(script, old(View()), activity.View(), now)
    {
      var quiet := activity.QuietSeconds(now);
      if !overlapped && quiet.Some? && quiet.value <= 0.0 {
        Record(now, Overlap);
        overlapped := true;
      }
    }

    method Record(time: real, kind: EventKind)
      requires lineIndex < |script.lines|
      modifies `timeline
      ensures View() == Recorded(script, old(View()), time, kind)
    {
      timeline := timeline + [TimelineEvent(time, kind, script.lines[lineIndex].lineId)];
    }
  }

  // What the caller hears itself say.

  /** A segment cut into frames, the first of them marked. */
  function SegmentFrames(segment: seq<byte>): (frames: seq<PlannedFrame>)
    requires |segment| % FRAME_BYTES == 0
    ensures |frames| * FRAME_BYTES == |segment|
  {
    seq(|segment| / FRAME_BYTES, i requires 0 <= i < |segment| / FRAME_BYTES =>
      PlannedFrame(segment[i * FRAME_BYTES..i * FRAME_BYTES + FRAME_BYTES], i == 0))
  }

  /** A line from segment `i` on: each segment's frames, then its pause in silent frames. */
  function LineFrames(s: Script, line: LineAudio, i: nat): seq<PlannedFrame>
    requires Playable(line) && i < |line.segments|
    decreases |line.segments| - i
  {
    SegmentFrames(line.segments[i]) + AfterSegment(s, line, i)
  }

  function AfterSegment(s: Script, line: LineAudio, i: nat): seq<PlannedFrame>
    requires Playable(line) && i < |line.segments|
    decreases |line.segments| - i, 0
  {
    if i + 1 >= |line.segments| then []
    else
      assert WholePause(line.pauses[i]);
      Repeat(Silent(s), line.pauses[i] / FRAME_MILLISECONDS) + LineFrames(s, line, i + 1)
  }

  /** The frames of the current line that are still to be sent. */
  function Remaining(s: Script, p: Plan): seq<PlannedFrame>
    requires Good(s) && ValidPlan(s, p)
  {
    match p.phase
    case Speaking =>
      var line := s.lines[p.line];
      assert WholeFrames(line.segments[p.segment]);
      SegmentFrames(line.segments[p.segment])[p.frame..] + AfterSegment(s, line, p.segment)
    case Pausing => Repeat(Silent(s), p.pauseLeft) + LineFrames(s, s.lines[p.line], p.segment + 1)
    case _ => []
  }

  predicate Talking(p: Plan) {
    p.phase == Speaking || p.phase == Pausing
  }

  /** Lines begun so far. */
  function Opened(p: Plan): nat {
    p.line + if Talking(p) then 1 else 0
  }

  /** A line picked up at the start of a segment has all of it left. */
  lemma RemainingFromStart(s: Script, p: Plan)
    requires Good(s) && ValidPlan(s, p) && p.phase == Speaking && p.frame == 0
    ensures Remaining(s, p) == LineFrames(s, s.lines[p.line], p.segment)
  {
  }

  /** What follows the last frame of a segment is what the plan has left then. */
  lemma SegmentOverLeaves(s: Script, p: Plan, end: real)
    requires Good(s) && p.line < |s.lines| && p.segment < |s.lines[p.line].segments| && p.phase == Speaking
    ensures var q := SegmentOver(s, p, end);
      ValidPlan(s, q) && Opened(q) == p.line + 1 && Remaining(s, q) == AfterSegment(s, s.lines[p.line], p.segment)
  {
    var line, q := s.lines[p.line], SegmentOver(s, p, end);
    SegmentOverKeepsValid(s, p, end);
    if q.phase == Speaking {
      RemainingFromStart(s, q);
      assert Repeat(Silent(s), 0) + LineFrames(s, line, p.segment + 1) == LineFrames(s, line, p.segment + 1);
    }
  }

  /** A segment's frames from one on are that frame and the rest. */
  lemma FrameSplit(segment: seq<byte>, k: nat)
    requires |segment| % FRAME_BYTES == 0 && k * FRAME_BYTES < |segment|
    ensures k < |SegmentFrames(segment)| && (k + 1) * FRAME_BYTES <= |segment|
    ensures SegmentFrames(segment)[k..]
         == [PlannedFrame(segment[k * FRAME_BYTES..k * FRAME_BYTES + FRAME_BYTES], k == 0)] + SegmentFrames(segment)[k + 1..]
  {
  }

  /** Inside a segment, the next frame is sent and the rest is left. */
  lemma FrameLeaves(s: Script, p: Plan, q: Plan)
    requires Good(s) && ValidPlan(s, p) && p.phase == Speaking && ValidPlan(s, q) && q.phase == Speaking
    requires q.line == p.line && q.segment == p.segment && q.frame == p.frame + 1
    ensures Remaining(s, p) == [NextSent(s, p)] + Remaining(s, q)
  {
    var line := s.lines[p.line];
    assert WholeFrames(line.segments[p.segment]);
    FrameSplit(line.segments[p.segment], p.frame);
    Associative([NextSent(s, p)], SegmentFrames(line.segments[p.segment])[p.frame + 1..], AfterSegment(s, line, p.segment));
  }

  function NextSent(s: Script, p: Plan): PlannedFrame
    requires Good(s) && ValidPlan(s, p) && p.phase == Speaking
  {
    var segment, offset := s.lines[p.line].segments[p.segment], p.frame * FRAME_BYTES;
    assert WholeFrames(segment);
    PlannedFrame(segment[offset..offset + FRAME_BYTES], p.frame == 0)
  }

  /** The last frame of a segment leaves what comes after the segment. */
  lemma LastFrameLeaves(s: Script, p: Plan)
    requires Good(s) && ValidPlan(s, p) && p.phase == Speaking
    requires (p.frame + 1) * FRAME_BYTES >= |s.lines[p.line].segments[p.segment]|
    ensures Remaining(s, p) == [NextSent(s, p)] + AfterSegment(s, s.lines[p.line], p.segment)
  {
    var line := s.lines[p.line];
    assert WholeFrames(line.segments[p.segment]);
    FrameSplit(line.segments[p.segment], p.frame);
    assert SegmentFrames(line.segments[p.segment])[p.frame + 1..] == [];
  }

  /** A speaking tick sends the segment's next frame, and goes on inside it or ends it. */
  lemma SpokeIs(s: Script, p: Plan, a: Activity, now: real)
    requires Good(s) && ValidPlan(s, p) && p.phase == Speaking
    ensures var t := Spoke(s, p, a, now);
      var q := Noted(s, p, a, now);
      var r := (if p.frame == 0 then Recorded(s, q, now, SegmentStarted) else q).(frame := p.frame + 1);
      && t.sent == NextSent(s, p)
      && t.plan == if (p.frame + 1) * FRAME_BYTES < |s.lines[p.line].segments[p.segment]| then r
                   else SegmentOver(s, r, now + FRAME_SECONDS)
  {
  }

  lemma SpokeFrames(s: Script, p: Plan, a: Activity, now: real)
    requires Good(s) && ValidPlan(s, p) && p.phase == Speaking
    ensures var t := Spoke(s, p, a, now);
      && ValidPlan(s, t.plan) && Opened(t.plan) == Opened(p)
      && Remaining(s, p) == [t.sent] + Remaining(s, t.plan)
  {
    var q := Noted(s, p, a, now);
    var r := (if p.frame == 0 then Recorded(s, q, now, SegmentStarted) else q).(frame := p.frame + 1);
    SpokeIs(s, p, a, now);
    if (p.frame + 1) * FRAME_BYTES < |s.lines[p.line].segments[p.segment]| {
      FrameLeaves(s, p, r);
    } else {
      LastFrameLeaves(s, p);
      SegmentOverLeaves(s, r, now + FRAME_SECONDS);
    }
  }

  lemma PausedFrames(s: Script, p: Plan, a: Activity, now: real)
    requires Good(s) && ValidPlan(s, p) && p.phase == Pausing
    ensures var q := Paused(s, p, a, now);
      && ValidPlan(s, q) && Opened(q) == Opened(p)
      && Remaining(s, p) == [Silent(s)] + Remaining(s, q)
  {
    var line := s.lines[p.line];
    assert WholeFrames(line.segments[p.segment + 1]);
    assert Repeat(Silent(s), p.pauseLeft) == [Silent(s)] + Repeat(Silent(s), p.pauseLeft - 1);
    Associative([Silent(s)], Repeat(Silent(s), p.pauseLeft - 1), LineFrames(s, line, p.segment + 1));
    assert p.pauseLeft == 1 ==> Remaining(s, Paused(s, p, a, now)) == LineFrames(s, line, p.segment + 1);
  }

  /** What one tick sends: the next frame of the line, the first frame of a line it starts, or silence. */
  lemma TickFrames(s: Script, p: Plan, a: Activity, now: real)
    requires Good(s) && ValidPlan(s, p)
    ensures var t, starts := Ticked(s, p, a, now), p.phase == Waiting && MaySpeak(s, a, now);
      && ValidPlan(s, t.plan)
      && Opened(t.plan) == Opened(p) + (if starts then 1 else 0)
      && [t.sent] + Remaining(s, t.plan)
         == (if Talking(p) then Remaining(s, p) else if starts then LineFrames(s, s.lines[p.line], 0) else [Silent(s)])
  {
    TickKeepsValid(s, p, a, now);
    if p.phase == Pausing {
      PausedFrames(s, p, a, now);
    } else if p.phase == Speaking {
      SpokeFrames(s, p, a, now);
    } else if p.phase == Waiting && MaySpeak(s, a, now) {
      var q := Waited(s, p, a, now);
      WaitedKeepsValid(s, p, a, now);
      assert WholeFrames(s.lines[p.line].segments[0]);
      assert Remaining(s, q) == LineFrames(s, s.lines[p.line], 0);
      SpokeFrames(s, q, a, now);
    }
  }

  /** One tick of a run: its time, and the detector as the planner finds it. */
  datatype Beat = Beat(now: real, heard: Activity)

  function Planned(s: Script, startTime: real, beats: seq<Beat>): (p: Plan)
    requires Good(s)
    ensures ValidPlan(s, p)
  {
    if beats == [] then Begun(s, startTime)
    else
      var n := |beats| - 1;
      var p := Planned(s, startTime, beats[..n]);
      TickKeepsValid(s, p, beats[n].heard, beats[n].now);
      Ticked(s, p, beats[n].heard, beats[n].now).plan
  }

  function Sent(s: Script, startTime: real, beats: seq<Beat>): seq<PlannedFrame>
    requires Good(s)
  {
    if beats == [] then []
    else
      var n := |beats| - 1;
      Sent(s, startTime, beats[..n]) + [Ticked(s, Planned(s, startTime, beats[..n]), beats[n].heard, beats[n].now).sent]
  }

  /** The first lines in order, each after its wait in silent frames. */
  function Conversation(s: Script, waits: seq<nat>): seq<PlannedFrame>
    requires Good(s) && |waits| <= |s.lines|
  {
    if waits == [] then []
    else
      var n := |waits| - 1;
      Conversation(s, waits[..n]) + Repeat(Silent(s), waits[n]) + LineFrames(s, s.lines[n], 0)
  }

  /** What was sent, and what is left of the line being said, is that conversation and silence since. */
  ghost predicate Accounts(s: Script, sent: seq<PlannedFrame>, p: Plan, waits: seq<nat>, since: nat) {
    && Good(s) && ValidPlan(s, p) && |waits| == Opened(p) && |waits| <= |s.lines|
    && (Talking(p) ==> since == 0)
    && sent + Remaining(s, p) == Conversation(s, waits) + Repeat(Silent(s), since)
  }

  /** Some waits before the lines account for what was sent. */
  ghost predicate AccountedFor(s: Script, sent: seq<PlannedFrame>, p: Plan) {
    exists waits, since :: Accounts(s, sent, p, waits, since)
  }

  lemma MoreOfTheLine(s: Script, sent: seq<PlannedFrame>, p: Plan, waits: seq<nat>, frame: PlannedFrame, q: Plan)
    requires Accounts(s, sent, p, waits, 0) && ValidPlan(s, q)
    requires [frame] + Remaining(s, q) == Remaining(s, p) && Opened(q) == Opened(p)
    ensures AccountedFor(s, sent + [frame], q)
  {
    Associative(sent, [frame], Remaining(s, q));
    assert Accounts(s, sent + [frame], q, waits, 0);
  }

  lemma NextLine(s: Script, sent: seq<PlannedFrame>, p: Plan, waits: seq<nat>, since: nat, frame: PlannedFrame, q: Plan)
    requires Accounts(s, sent, p, waits, since) && ValidPlan(s, q) && p.phase == Waiting
    requires [frame] + Remaining(s, q) == LineFrames(s, s.lines[p.line], 0) && Opened(q) == Opened(p) + 1
    ensures AccountedFor(s, sent + [frame], q)
  {
    var more := waits + [since];
    assert more[..|waits|] == waits;
    assert sent + Remaining(s, p) == sent;
    Associative(sent, [frame], Remaining(s, q));
    assert Conversation(s, more) == Conversation(s, waits) + Repeat(Silent(s), since) + LineFrames(s, s.lines[p.line], 0);
    assert Conversation(s, more) + Repeat(Silent(s), 0) == Conversation(s, more);
    assert Accounts(s, sent + [frame], q, more, 0);
  }

  lemma MoreSilence(s: Script, sent: seq<PlannedFrame>, p: Plan, waits: seq<nat>, since: nat, q: Plan)
    requires Accounts(s, sent, p, waits, since) && ValidPlan(s, q) && !Talking(p)
    requires [Silent(s)] + Remaining(s, q) == [Silent(s)] && Opened(q) == Opened(p)
    ensures AccountedFor(s, sent + [Silent(s)], q)
  {
    assert |Remaining(s, q)| == 0 && sent + Remaining(s, p) == sent;
    assert Repeat(Silent(s), since + 1) == Repeat(Silent(s), since) + [Silent(s)];
    Associative(Conversation(s, waits), Repeat(Silent(s), since), [Silent(s)]);
    RemainingWhileTalking(s, q);
    assert Accounts(s, sent + [Silent(s)], q, waits, since + 1);
  }

  lemma RemainingWhileTalking(s: Script, p: Plan)
    requires Good(s) && ValidPlan(s, p)
    ensures Talking(p) <==> |Remaining(s, p)| > 0
  {
    if p.phase == Speaking {
      assert WholeFrames(s.lines[p.line].segments[p.segment]);
    }
  }

  lemma NothingSentYet(s: Script, startTime: real)
    requires Good(s)
    ensures AccountedFor(s, [], Begun(s, startTime))
  {
    var waits: seq<nat> := [];
    assert Conversation(s, waits) + Repeat(Silent(s), 0) == [];
    assert Accounts(s, [], Begun(s, startTime), waits, 0);
  }

  lemma StillAccountedFor(s: Script, sent: seq<PlannedFrame>, p: Plan, a: Activity, now: real)
    requires Good(s) && ValidPlan(s, p) && AccountedFor(s, sent, p)
    ensures AccountedFor(s, sent + [Ticked(s, p, a, now).sent], Ticked(s, p, a, now).plan)
  {
    var waits, since :| Accounts(s, sent, p, waits, since);
    var t := Ticked(s, p, a, now);
    TickFrames(s, p, a, now);
    if Talking(p) {
      MoreOfTheLine(s, sent, p, waits, t.sent, t.plan);
    } else if p.phase == Waiting && MaySpeak(s, a, now) {
      NextLine(s, sent, p, waits, since, t.sent, t.plan);
    } else {
      MoreSilence(s, sent, p, waits, since, t.plan);
    }
  }

  /** Whatever the bot does, the caller sends its lines whole, in order, and silence everywhere else. */
  lemma {:induction false} CallerKeepsToItsScript(s: Script, startTime: real, beats: seq<Beat>)
    requires Good(s)
    ensures AccountedFor(s, Sent(s, startTime, beats), Planned(s, startTime, beats))
  {
    if beats == [] {
      NothingSentYet(s, startTime);
    } else {
      var n := |beats| - 1;
      CallerKeepsToItsScript(s, startTime, beats[..n]);
      StillAccountedFor(s, Sent(s, startTime, beats[..n]), Planned(s, startTime, beats[..n]), beats[n].heard, beats[n].now);
    }
  }

  function Payload(frames: seq<PlannedFrame>): seq<byte> {
    if frames == [] then [] else Payload(frames[..|frames| - 1]) + frames[|frames| - 1].payload
  }

  /** A segment's frames carry the segment: cut up, and put together again. */
  lemma {:induction false} SegmentIsItsFrames(segment: seq<byte>, n: nat)
    requires |segment| % FRAME_BYTES == 0 && n <= |segment| / FRAME_BYTES
    ensures Payload(SegmentFrames(segment)[..n]) == segment[..n * FRAME_BYTES]
    ensures n == |segment| / FRAME_BYTES ==> Payload(SegmentFrames(segment)) == segment
  {
    var frames := SegmentFrames(segment);
    if n > 0 {
      SegmentIsItsFrames(segment, n - 1);
      assert frames[..n][..n - 1] == frames[..n - 1];
    }
    if n == |frames| {
      assert frames[..n] == frames;
    }
  }

  // The timeline.

  /** How far a reader of the timeline has come: between lines, inside one, or past the end. */
  datatype Reading =
    | Between(lines: nat)
    | InLine(lines: nat, segments: nat, open: bool, overlapped: bool)
    | GivenUp(lines: nat)
    | Wrong

  /**
   The timeline's grammar. A line's start, then each segment's start and end, then the line's end; at most one
   overlap inside a line; after a wait that timed out, nothing.
   */
  function ReadEvent(s: Script, r: Reading, e: TimelineEvent): Reading {
    if r.Wrong? || r.GivenUp? || r.lines >= |s.lines| || e.lineId != s.lines[r.lines].lineId then Wrong
    else match e.kind
      case LineStarted => if r.Between? then InLine(r.lines, 0, false, false) else Wrong
      case WaitTimedOut => if r.Between? then GivenUp(r.lines) else Wrong
      case Overlap => if r.InLine? && !r.overlapped then r.(overlapped := true) else Wrong
      case SegmentStarted =>
        if r.InLine? && !r.open && r.segments < |s.lines[r.lines].segments| then r.(open := true) else Wrong
      case SegmentEnded => if r.InLine? && r.open then r.(open := false, segments := r.segments + 1) else Wrong
      case LineEnded =>
        if r.InLine? && !r.open && r.segments == |s.lines[r.lines].segments| then Between(r.lines + 1) else Wrong
  }

  function ReadAll(s: Script, timeline: seq<TimelineEvent>): Reading {
    if timeline == [] then Between(0)
    else ReadEvent(s, ReadAll(s, timeline[..|timeline| - 1]), timeline[|timeline| - 1])
  }

  /** Where the reader must be, going by the planner's fields. */
  function Expected(p: Plan): Reading {
    match p.phase
    case Speaking => InLine(p.line, p.segment, p.frame > 0, p.overlapped)
    case Pausing => InLine(p.line, p.segment + 1, false, p.overlapped)
    case Stalled => GivenUp(p.line)
    case _ => Between(p.line)
  }

  /** The reader of the run so far says where the planner is. */
  predicate Told(p: Plan, read: seq<TimelineEvent> -> Reading) {
    read(p.timeline) == Expected(p)
  }

  /** A reader that takes events one at a time. */
  ghost predicate Reader(s: Script, read: seq<TimelineEvent> -> Reading) {
    forall timeline, e :: read(timeline + [e]) == ReadEvent(s, read(timeline), e)
  }

  lemma ToldSegmentOver(s: Script, p: Plan, end: real, read: seq<TimelineEvent> -> Reading)
    requires Reader(s, read) && Good(s) && p.line < |s.lines| && p.segment < |s.lines[p.line].segments| && p.phase == Speaking
    requires read(p.timeline) == InLine(p.line, p.segment, true, p.overlapped)
    ensures Told(SegmentOver(s, p, end), read)
  {
  }

  lemma ToldNoted(s: Script, p: Plan, a: Activity, now: real, read: seq<TimelineEvent> -> Reading)
    requires Reader(s, read) && p.line < |s.lines| && Talking(p) && Told(p, read)
    ensures Told(Noted(s, p, a, now), read)
  {
  }

  lemma ToldSpoke(s: Script, p: Plan, a: Activity, now: real, read: seq<TimelineEvent> -> Reading)
    requires Reader(s, read) && Good(s) && ValidPlan(s, p) && p.phase == Speaking && Told(p, read)
    ensures Told(Spoke(s, p, a, now).plan, read)
  {
    var q := Noted(s, p, a, now);
    ToldNoted(s, p, a, now, read);
    var r := (if p.frame == 0 then Recorded(s, q, now, SegmentStarted) else q).(frame := p.frame + 1);
    assert read(r.timeline) == InLine(p.line, p.segment, true, r.overlapped);
    if r.frame * FRAME_BYTES >= |s.lines[p.line].segments[p.segment]| {
      ToldSegmentOver(s, r, now + FRAME_SECONDS, read);
    }
  }

  lemma ToldTick(s: Script, p: Plan, a: Activity, now: real, read: seq<TimelineEvent> -> Reading)
    requires Reader(s, read) && Good(s) && ValidPlan(s, p) && Told(p, read)
    ensures Told(Ticked(s, p, a, now).plan, read)
  {
    var q := if p.phase == Waiting then Waited(s, p, a, now) else p;
    if p.phase == Waiting {
      WaitedKeepsValid(s, p, a, now);
    }
    if q.phase == Speaking {
      ToldSpoke(s, q, a, now, read);
    }
  }

  lemma ReadAllReads(s: Script)
    ensures Reader(s, timeline => ReadAll(s, timeline))
  {
    forall timeline: seq<TimelineEvent>, e
      ensures ReadAll(s, timeline + [e]) == ReadEvent(s, ReadAll(s, timeline), e)
    {
      assert (timeline + [e])[..|timeline|] == timeline;
    }
  }

  /** The timeline of every run is read without a fault, and says where the planner is. */
  lemma {:induction false} TimelineFollowsTheGrammar(s: Script, startTime: real, beats: seq<Beat>)
    requires Good(s)
    ensures ReadAll(s, Planned(s, startTime, beats).timeline) == Expected(Planned(s, startTime, beats))
  {
    if beats != [] {
      var n := |beats| - 1;
      TimelineFollowsTheGrammar(s, startTime, beats[..n]);
      ReadAllReads(s);
      ToldTick(s, Planned(s, startTime, beats[..n]), beats[n].heard, beats[n].now, timeline => ReadAll(s, timeline));
    }
  }

  // The same grammar, spelled out.

  datatype Entry = Entry(kind: EventKind, lineId: string)

  /** The timeline without its times and its overlaps. */
  function Plain(timeline: seq<TimelineEvent>): seq<Entry> {
    if timeline == [] then []
    else
      var n := |timeline| - 1;
      Plain(timeline[..n]) + Spelling(timeline[n])
  }

  /** The starts and ends of `n` segments. */
  function SegmentEntries(lineId: string, n: nat): seq<Entry> {
    if n == 0 then [] else SegmentEntries(lineId, n - 1) + [Entry(SegmentStarted, lineId), Entry(SegmentEnded, lineId)]
  }

  /** Everything `n` whole lines leave on the timeline. */
  function LineEntries(s: Script, n: nat): seq<Entry>
    requires n <= |s.lines|
  {
    if n == 0 then []
    else
      var line := s.lines[n - 1];
      LineEntries(s, n - 1)
      + ([Entry(LineStarted, line.lineId)] + SegmentEntries(line.lineId, |line.segments|) + [Entry(LineEnded, line.lineId)])
  }

  function Spelled(s: Script, r: Reading): seq<Entry>
    requires InScript(s, r)
  {
    match r
    case Wrong => []
    case Between(k) => LineEntries(s, k)
    case GivenUp(k) => LineEntries(s, k) + [Entry(WaitTimedOut, s.lines[k].lineId)]
    case InLine(k, n, open, _) =>
      var id := s.lines[k].lineId;
      LineEntries(s, k) + ([Entry(LineStarted, id)] + SegmentEntries(id, n) + if open then [Entry(SegmentStarted, id)] else [])
  }

  /** Where a reading may stand. */
  predicate InScript(s: Script, r: Reading) {
    r.Wrong? || (if r.Between? then r.lines <= |s.lines| else r.lines < |s.lines|)
  }

  function Spelling(e: TimelineEvent): seq<Entry> {
    if e.kind == Overlap then [] else [Entry(e.kind, e.lineId)]
  }

  lemma SpelledEvent(s: Script, r: Reading, e: TimelineEvent)
    requires InScript(s, r) && !ReadEvent(s, r, e).Wrong?
    ensures InScript(s, ReadEvent(s, r, e)) && Spelled(s, ReadEvent(s, r, e)) == Spelled(s, r) + Spelling(e)
  {
    var k, id := r.lines, e.lineId;
    var started := [Entry(LineStarted, id)];
    match e.kind
    case LineStarted => assert SegmentEntries(id, 0) == [];
    case WaitTimedOut =>
    case Overlap =>
    case SegmentStarted =>
      Associative(LineEntries(s, k), started + SegmentEntries(id, r.segments), [Entry(SegmentStarted, id)]);
    case SegmentEnded =>
      assert Spelled(s, ReadEvent(s, r, e)) == LineEntries(s, k) + (started + SegmentEntries(id, r.segments + 1));
    case LineEnded =>
      Associative(LineEntries(s, k), started + SegmentEntries(id, r.segments), [Entry(LineEnded, id)]);
  }

  /** A timeline the reader accepts says exactly what its place in the script spells. */
  lemma {:induction false} AcceptedTimelines(s: Script, timeline: seq<TimelineEvent>)
    requires !ReadAll(s, timeline).Wrong?
    ensures InScript(s, ReadAll(s, timeline)) && Plain(timeline) == Spelled(s, ReadAll(s, timeline))
  {
    if timeline != [] {
      var n := |timeline| - 1;
      AcceptedTimelines(s, timeline[..n]);
      SpelledEvent(s, ReadAll(s, timeline[..n]), timeline[n]);
    }
  }

  // How long a run takes, on ticks one frame apart.

  predicate Done(p: Plan) {
    p.phase == Finished || p.phase == Stalled
  }

  /** Tick `i` of a run whose first tick is at `startTime`. */
  function TickTime(startTime: real, i: nat): real {
    TimeOf(startTime, FRAME_SECONDS, i)
  }

  predicate OnTicks(startTime: real, beats: seq<Beat>) {
    forall i :: 0 <= i < |beats| ==> beats[i].now == TickTime(startTime, i)
  }

  /** The least whole number of ticks that lasts the timeout. */
  function WaitTicks(timeout: real): nat {
    if timeout <= TOLERANCE then 0 else -(-((timeout - TOLERANCE) / FRAME_SECONDS)).Floor
  }

  lemma {:induction false} LengthInSeconds(n: nat)
    ensures Length(FRAME_SECONDS, n) == n as real * FRAME_SECONDS
  {
    if n > 0 {
      LengthInSeconds(n - 1);
    }
  }

  /** A wait has lasted its timeout exactly from that tick on. */
  lemma TimesOutIff(timeout: real, n: nat)
    ensures Length(FRAME_SECONDS, n) >= timeout - TOLERANCE <==> n >= WaitTicks(timeout)
  {
    LengthInSeconds(n);
  }

  /** Ticks the lines from `k` on take when each starts at the last moment. */
  function Budget(s: Script, k: nat): nat
    requires Good(s) && k <= |s.lines|
    decreases |s.lines| - k
  {
    if k == |s.lines| then 0 else LineBudget(s, k) + Budget(s, k + 1)
  }

  function LineBudget(s: Script, k: nat): nat
    requires Good(s) && k < |s.lines|
  {
    WaitTicks(Timeout(s, k)) + |LineFrames(s, s.lines[k], 0)|
  }

  /** Ticks left from tick `i`, when the current wait began at tick `w`. */
  function Left(s: Script, p: Plan, i: nat, w: nat): int
    requires Good(s) && ValidPlan(s, p)
  {
    if Done(p) then 0
    else if p.phase == Waiting then LineBudget(s, p.line) - (i - w) + Budget(s, p.line + 1)
    else |Remaining(s, p)| + Budget(s, p.line + 1)
  }

  predicate OnGrid(s: Script, startTime: real, p: Plan, i: nat, w: nat) {
    p.phase == Waiting ==> p.line < |s.lines| && w <= i <= w + WaitTicks(Timeout(s, p.line)) && p.waitStarted == TickTime(startTime, w)
  }

  /** The wait is on its last tick: the line starts on it or the planner gives up. */
  predicate LastChance(s: Script, p: Plan, i: nat, w: nat) {
    p.phase == Waiting && p.line < |s.lines| && i == w + WaitTicks(Timeout(s, p.line))
  }

  lemma LineHasFrames(s: Script, line: LineAudio)
    requires Playable(line)
    ensures |LineFrames(s, line, 0)| > 0
  {
    assert WholeFrames(line.segments[0]);
  }

  /** When a speaking tick leaves the planner waiting, the wait begins on the next tick. */
  lemma WaitBegins(s: Script, startTime: real, p: Plan, a: Activity, i: nat)
    requires Good(s) && ValidPlan(s, p) && Talking(p)
    ensures var q := Ticked(s, p, a, TickTime(startTime, i)).plan;
      && q.phase != Stalled
      && (q.phase == Waiting ==> q.line == p.line + 1 && q.waitStarted == TickTime(startTime, i + 1))
      && (q.phase == Finished ==> q.line == p.line + 1)
  {
  }

  /** The tick the wait of the new plan counts from. */
  function WaitTick(p: Plan, q: Plan, i: nat, w: nat): nat {
    if q.line > p.line then i + 1 else w
  }

  /** The plan is on the grid at tick `i` with exactly `left` ticks left. */
  predicate Leaves(s: Script, startTime: real, q: Plan, i: nat, w: nat, left: int)
    requires Good(s)
  {
    ValidPlan(s, q) && OnGrid(s, startTime, q, i, w) && q.phase != Stalled && Left(s, q, i, w) == left
  }

  /** A plan that goes on from `p` with one frame less, or waits for the next line. */
  lemma OneLess(s: Script, startTime: real, p: Plan, q: Plan, i: nat, w: nat)
    requires Good(s) && ValidPlan(s, p) && ValidPlan(s, q) && Talking(p) && Opened(q) == Opened(p) && q.phase != Stalled
    requires |Remaining(s, p)| == 1 + |Remaining(s, q)|
    requires q.phase == Waiting ==> q.line == p.line + 1 && q.waitStarted == TickTime(startTime, i + 1)
    requires q.phase == Finished ==> q.line == p.line + 1
    ensures Leaves(s, startTime, q, i + 1, WaitTick(p, q, i, w), Left(s, p, i, w) - 1)
  {
  }

  /** Inside a line every tick takes exactly one off what is left. */
  lemma TalkingLeft(s: Script, startTime: real, p: Plan, a: Activity, i: nat, w: nat)
    requires Good(s) && ValidPlan(s, p) && Talking(p)
    ensures var q := Ticked(s, p, a, TickTime(startTime, i)).plan;
      Leaves(s, startTime, q, i + 1, WaitTick(p, q, i, w), Left(s, p, i, w) - 1)
  {
    var t := Ticked(s, p, a, TickTime(startTime, i));
    TickFrames(s, p, a, TickTime(startTime, i));
    WaitBegins(s, startTime, p, a, i);
    assert |[t.sent] + Remaining(s, t.plan)| == 1 + |Remaining(s, t.plan)|;
    OneLess(s, startTime, p, t.plan, i, w);
  }

  /** A tick that starts a line is a speaking tick of the line just begun. */
  lemma StartsSpeaking(s: Script, p: Plan, a: Activity, now: real, i: nat, w: nat)
    requires Good(s) && ValidPlan(s, p) && p.phase == Waiting && MaySpeak(s, a, now)
    ensures var q := Waited(s, p, a, now);
      && ValidPlan(s, q) && Talking(q) && q.line == p.line && Ticked(s, p, a, now) == Ticked(s, q, a, now)
      && Left(s, q, i, w) == |LineFrames(s, s.lines[p.line], 0)| + Budget(s, p.line + 1)
  {
    WaitedKeepsValid(s, p, a, now);
    assert Remaining(s, Waited(s, p, a, now)) == LineFrames(s, s.lines[p.line], 0);
  }

  /** A line that starts leaves its frames, less the one just sent. */
  lemma StartingLeft(s: Script, startTime: real, p: Plan, a: Activity, i: nat, w: nat)
    requires Good(s) && ValidPlan(s, p) && p.phase == Waiting && MaySpeak(s, a, TickTime(startTime, i))
    ensures var q := Ticked(s, p, a, TickTime(startTime, i)).plan;
      Leaves(s, startTime, q, i + 1, WaitTick(p, q, i, w), |LineFrames(s, s.lines[p.line], 0)| - 1 + Budget(s, p.line + 1))
  {
    var q := Waited(s, p, a, TickTime(startTime, i));
    StartsSpeaking(s, p, a, TickTime(startTime, i), i, w);
    TalkingLeft(s, startTime, q, a, i, w);
  }

  /** A line that may not start leaves the plan as it was, or stalled on the wait's last tick. */
  lemma WaitsOrStalls(s: Script, startTime: real, p: Plan, a: Activity, i: nat, w: nat)
    requires Good(s) && ValidPlan(s, p) && p.phase == Waiting && OnGrid(s, startTime, p, i, w)
    requires !MaySpeak(s, a, TickTime(startTime, i))
    ensures var q := Ticked(s, p, a, TickTime(startTime, i)).plan;
      if LastChance(s, p, i, w) then ValidPlan(s, q) && q.phase == Stalled && q.line == p.line else q == p
  {
    LengthAdds(FRAME_SECONDS, w, i - w);
    TimesOutIff(Timeout(s, p.line), i - w);
    WaitedKeepsValid(s, p, a, TickTime(startTime, i));
  }

  /** Waiting, a tick takes off at least one, and exactly one unless the line starts early or never. */
  lemma WaitingLeft(s: Script, startTime: real, p: Plan, a: Activity, i: nat, w: nat)
    requires Good(s) && ValidPlan(s, p) && p.phase == Waiting && OnGrid(s, startTime, p, i, w)
    ensures var now := TickTime(startTime, i);
      var q := Ticked(s, p, a, now).plan;
      && ValidPlan(s, q) && OnGrid(s, startTime, q, i + 1, WaitTick(p, q, i, w))
      && (q.phase == Stalled <==> !MaySpeak(s, a, now) && LastChance(s, p, i, w))
      && Left(s, q, i + 1, WaitTick(p, q, i, w)) <= Left(s, p, i, w) - 1
      && (MaySpeak(s, a, now) == LastChance(s, p, i, w) ==>
        Left(s, q, i + 1, WaitTick(p, q, i, w)) == Left(s, p, i, w) - 1)
  {
    var now := TickTime(startTime, i);
    if MaySpeak(s, a, now) {
      StartingLeft(s, startTime, p, a, i, w);
    } else {
      WaitsOrStalls(s, startTime, p, a, i, w);
      LineHasFrames(s, s.lines[p.line]);
    }
  }

  /** The run so far, with what is left, fits the budget, or is over. */
  ghost predicate InBudget(s: Script, startTime: real, p: Plan, i: nat) {
    && Good(s) && ValidPlan(s, p)
    && exists w: nat :: OnGrid(s, startTime, p, i, w) && FitsBudget(s, p, i, w)
  }

  predicate FitsBudget(s: Script, p: Plan, i: nat, w: nat)
    requires Good(s) && ValidPlan(s, p)
  {
    Done(p) || i + Left(s, p, i, w) <= Budget(s, 0)
  }

  lemma InBudgetTick(s: Script, startTime: real, p: Plan, a: Activity, i: nat)
    requires InBudget(s, startTime, p, i)
    ensures InBudget(s, startTime, Ticked(s, p, a, TickTime(startTime, i)).plan, i + 1)
  {
    var q := Ticked(s, p, a, TickTime(startTime, i)).plan;
    var w: nat :| OnGrid(s, startTime, p, i, w) && FitsBudget(s, p, i, w);
    var v := WaitTick(p, q, i, w);
    if p.phase == Waiting {
      WaitingLeft(s, startTime, p, a, i, w);
    } else if Talking(p) {
      TalkingLeft(s, startTime, p, a, i, w);
    }
    assert OnGrid(s, startTime, q, i + 1, v) && FitsBudget(s, q, i + 1, v);
  }

  /** On whole ticks the planner is finished or stalled once every wait and every line could have run in full. */
  lemma {:induction false} RunIsBounded(s: Script, startTime: real, beats: seq<Beat>)
    requires Good(s) && OnTicks(startTime, beats)
    ensures InBudget(s, startTime, Planned(s, startTime, beats), |beats|)
    ensures |beats| >= Budget(s, 0) ==> Done(Planned(s, startTime, beats))
  {
    if beats == [] {
      assert OnGrid(s, startTime, Begun(s, startTime), 0, 0) && FitsBudget(s, Begun(s, startTime), 0, 0);
    } else {
      var n := |beats| - 1;
      RunIsBounded(s, startTime, beats[..n]);
      InBudgetTick(s, startTime, Planned(s, startTime, beats[..n]), beats[n].heard, n);
      assert beats[n].now == TickTime(startTime, n);
    }
    var p := Planned(s, startTime, beats);
    var w: nat :| OnGrid(s, startTime, p, |beats|, w) && FitsBudget(s, p, |beats|, w);
    if !Done(p) {
      SomethingLeft(s, startTime, p, |beats|, w);
    }
  }

  lemma SomethingLeft(s: Script, startTime: real, p: Plan, i: nat, w: nat)
    requires Good(s) && ValidPlan(s, p) && OnGrid(s, startTime, p, i, w)
    ensures Done(p) <==> Left(s, p, i, w) == 0
    ensures Left(s, p, i, w) >= 0
  {
    if p.phase == Waiting {
      LineHasFrames(s, s.lines[p.line]);
    } else if p.phase == Pausing {
      assert |Remaining(s, p)| >= p.pauseLeft;
    }
  }

  /** What the budget is in seconds: a line's audio and pauses, and its timeout. */
  function LineSeconds(line: LineAudio, i: nat): real
    requires |line.pauses| == |line.segments| && i <= |line.segments|
    decreases |line.segments| - i
  {
    if i == |line.segments| then 0.0
    else |line.segments[i]| as real / 8000.0 + line.pauses[i] as real / 1000.0 + LineSeconds(line, i + 1)
  }

  function TotalSeconds(s: Script, k: nat): real
    requires Good(s) && k <= |s.lines|
    decreases |s.lines| - k
  {
    if k == |s.lines| then 0.0 else Timeout(s, k) + LineSeconds(s.lines[k], 0) + TotalSeconds(s, k + 1)
  }

  lemma {:induction false} LineTakesItsSeconds(s: Script, line: LineAudio, i: nat)
    requires Playable(line) && i < |line.segments|
    ensures |LineFrames(s, line, i)| as real * FRAME_SECONDS == LineSeconds(line, i)
    decreases |line.segments| - i
  {
    assert WholeFrames(line.segments[i]) && WholePause(line.pauses[i]);
    if i + 1 < |line.segments| {
      LineTakesItsSeconds(s, line, i + 1);
    } else {
      assert line.pauses[i] == 0 && LineSeconds(line, i + 1) == 0.0;
    }
  }

  /** A timeout's ticks, in seconds, fall short of it by the tolerance at most and pass it by less than one tick. */
  lemma WaitTicksInSeconds(timeout: real)
    requires timeout >= 0.0
    ensures timeout - TOLERANCE <= WaitTicks(timeout) as real * FRAME_SECONDS < timeout + FRAME_SECONDS
  {
    var x := (timeout - TOLERANCE) / FRAME_SECONDS;
    assert x * FRAME_SECONDS == timeout - TOLERANCE;
  }

  /** A timeout of whole ticks takes those ticks. */
  lemma WholeTimeout(n: nat)
    ensures WaitTicks(n as real * FRAME_SECONDS) == n
  {
    var x := (n as real * FRAME_SECONDS - TOLERANCE) / FRAME_SECONDS;
    assert x == n as real - TOLERANCE / FRAME_SECONDS;
  }

  /** With every timeout a whole number of ticks, the budget is the sum of the timeouts and the lines. */
  lemma {:induction false} BudgetInSeconds(s: Script, k: nat)
    requires Good(s) && k <= |s.lines|
    requires forall j :: k <= j < |s.lines| ==> WaitTicks(Timeout(s, j)) as real * FRAME_SECONDS == Timeout(s, j)
    ensures Budget(s, k) as real * FRAME_SECONDS == TotalSeconds(s, k)
    decreases |s.lines| - k
  {
    if k < |s.lines| {
      LineTakesItsSeconds(s, s.lines[k], 0);
      BudgetInSeconds(s, k + 1);
    }
  }

  // When things happened, by the timeline and by what was sent.

  /** When events of a kind happened, by the timeline. */
  function EventTimes(timeline: seq<TimelineEvent>, kind: EventKind): seq<real> {
    if timeline == [] then []
    else
      var n := |timeline| - 1;
      EventTimes(timeline[..n], kind) + if timeline[n].kind == kind then [timeline[n].time] else []
  }

  /** The tick sends the last frame of a segment: of the one being said, or of the first of a line just begun. */
  predicate LastOfSegment(s: Script, p: Plan, t: Tick)
    requires Good(s) && ValidPlan(s, p)
  {
    if p.phase == Speaking then (p.frame + 1) * FRAME_BYTES >= |s.lines[p.line].segments[p.segment]|
    else Opened(t.plan) > Opened(p) && p.line < |s.lines| && FRAME_BYTES >= |s.lines[p.line].segments[0]|
  }

  /**
   The tick sends the first frame of a line, a marked frame, the last frame of a segment or that of a line; or the
   wait is given up on it.
   */
  predicate Marks(s: Script, p: Plan, t: Tick, kind: EventKind)
    requires Good(s) && ValidPlan(s, p) && ValidPlan(s, t.plan)
  {
    match kind
    case LineStarted => Opened(t.plan) > Opened(p)
    case SegmentStarted => t.sent.marker
    case SegmentEnded => LastOfSegment(s, p, t)
    case LineEnded => (Talking(p) || Opened(t.plan) > Opened(p)) && Remaining(s, t.plan) == []
    case WaitTimedOut => p.phase == Waiting && t.plan.phase == Stalled
    case Overlap => false
  }

  /** The start of the frame sent, or the end of it. */
  function TimeOfFrame(now: real, kind: EventKind): real {
    if kind == LineEnded || kind == SegmentEnded then now + FRAME_SECONDS else now
  }

  /** When such frames were sent. */
  function SentTimes(s: Script, startTime: real, beats: seq<Beat>, kind: EventKind): seq<real>
    requires Good(s)
  {
    if beats == [] then []
    else
      var n := |beats| - 1;
      var p := Planned(s, startTime, beats[..n]);
      TickKeepsValid(s, p, beats[n].heard, beats[n].now);
      SentTimes(s, startTime, beats[..n], kind)
      + if Marks(s, p, Ticked(s, p, beats[n].heard, beats[n].now), kind) then [TimeOfFrame(beats[n].now, kind)] else []
  }

  ghost predicate Collects(times: seq<TimelineEvent> -> seq<real>, kind: EventKind) {
    forall timeline, e :: times(timeline + [e]) == times(timeline) + if e.kind == kind then [e.time] else []
  }

  predicate OfFrames(kind: EventKind) {
    kind != Overlap
  }

  lemma TimesOfSegmentOver(s: Script, p: Plan, end: real, times: seq<TimelineEvent> -> seq<real>, kind: EventKind)
    requires Collects(times, kind) && OfFrames(kind) && Good(s)
    requires p.line < |s.lines| && p.segment < |s.lines[p.line].segments| && p.phase == Speaking
    ensures var q := SegmentOver(s, p, end);
      && ValidPlan(s, q) && (Remaining(s, q) == [] <==> LastSegment(s, p))
      && times(q.timeline) == times(p.timeline) + if kind == SegmentEnded || (kind == LineEnded && LastSegment(s, p)) then [end] else []
  {
    SegmentOverKeepsValid(s, p, end);
    RemainingWhileTalking(s, SegmentOver(s, p, end));
  }

  lemma TimesOfSpoke(s: Script, p: Plan, a: Activity, now: real, times: seq<TimelineEvent> -> seq<real>, kind: EventKind)
    requires Collects(times, kind) && OfFrames(kind) && Good(s) && ValidPlan(s, p) && p.phase == Speaking
    ensures var t := Spoke(s, p, a, now);
      && ValidPlan(s, t.plan)
      && times(t.plan.timeline) == times(p.timeline)
         + (if kind == SegmentStarted && t.sent.marker then [now]
            else if kind == SegmentEnded && (p.frame + 1) * FRAME_BYTES >= |s.lines[p.line].segments[p.segment]|
            then [now + FRAME_SECONDS]
            else if kind == LineEnded && Remaining(s, t.plan) == [] then [now + FRAME_SECONDS] else [])
  {
    var q := Noted(s, p, a, now);
    var r := (if p.frame == 0 then Recorded(s, q, now, SegmentStarted) else q).(frame := p.frame + 1);
    SpokeKeepsValid(s, p, a, now);
    SpokeIs(s, p, a, now);
    assert times(q.timeline) == times(p.timeline);
    assert times(r.timeline) == times(p.timeline) + if kind == SegmentStarted && p.frame == 0 then [now] else [];
    if (p.frame + 1) * FRAME_BYTES < |s.lines[p.line].segments[p.segment]| {
      RemainingWhileTalking(s, r);
    } else {
      TimesOfSegmentOver(s, r, now + FRAME_SECONDS, times, kind);
    }
  }

  /** A tick that starts a line is a speaking tick at its beginning. */
  lemma StartIsSpoke(s: Script, p: Plan, a: Activity, now: real, q: Plan)
    requires Good(s) && ValidPlan(s, p) && p.phase == Waiting && MaySpeak(s, a, now) && q == Waited(s, p, a, now)
    ensures ValidPlan(s, q) && q.phase == Speaking && q.line == p.line && q.segment == q.frame == 0 && !q.overlapped
    ensures Ticked(s, p, a, now) == Spoke(s, q, a, now)
    ensures ValidPlan(s, Ticked(s, p, a, now).plan) && Opened(Ticked(s, p, a, now).plan) > Opened(p)
  {
    StartsSpeaking(s, p, a, now, 0, 0);
    SpokeKeepsValid(s, q, a, now);
    SpokeOpens(s, q, a, now);
  }

  lemma SpokeOpens(s: Script, p: Plan, a: Activity, now: real)
    requires Good(s) && ValidPlan(s, p) && p.phase == Speaking
    ensures Opened(Spoke(s, p, a, now).plan) == p.line + 1
    ensures Talking(Spoke(s, p, a, now).plan) ==> Spoke(s, p, a, now).plan.line == p.line
  {
  }

  /** A tick that starts a line records its start, and then what a speaking tick does. */
  lemma TimesOfStart(s: Script, p: Plan, a: Activity, now: real, times: seq<TimelineEvent> -> seq<real>, kind: EventKind)
    requires Collects(times, kind) && OfFrames(kind) && Good(s) && ValidPlan(s, p) && p.phase == Waiting && MaySpeak(s, a, now)
    ensures var t := Ticked(s, p, a, now);
      && ValidPlan(s, t.plan) && Opened(t.plan) > Opened(p)
      && times(t.plan.timeline) == times(p.timeline)
         + (if kind == LineStarted || (kind == SegmentStarted && t.sent.marker) then [now]
            else if kind == SegmentEnded && FRAME_BYTES >= |s.lines[p.line].segments[0]| then [now + FRAME_SECONDS]
            else if kind == LineEnded && Remaining(s, t.plan) == [] then [now + FRAME_SECONDS] else [])
  {
    var q := Waited(s, p, a, now);
    StartIsSpoke(s, p, a, now, q);
    assert times(q.timeline) == times(p.timeline) + if kind == LineStarted then [now] else [];
    TimesOfSpoke(s, q, a, now, times, kind);
  }

  lemma TimesOfPause(s: Script, p: Plan, a: Activity, now: real, times: seq<TimelineEvent> -> seq<real>, kind: EventKind)
    requires Collects(times, kind) && OfFrames(kind) && Good(s) && ValidPlan(s, p) && p.phase == Pausing
    ensures var q := Paused(s, p, a, now);
      ValidPlan(s, q) && Opened(q) == Opened(p) && Remaining(s, q) != [] && times(q.timeline) == times(p.timeline)
  {
    PausedFrames(s, p, a, now);
    RemainingWhileTalking(s, Paused(s, p, a, now));
    assert times(Noted(s, p, a, now).timeline) == times(p.timeline);
  }

  /** A waiting tick that starts no line records the wait's end, if this is it. */
  lemma TimesOfWait(s: Script, p: Plan, a: Activity, now: real, times: seq<TimelineEvent> -> seq<real>, kind: EventKind)
    requires Collects(times, kind) && OfFrames(kind) && Good(s) && ValidPlan(s, p) && p.phase == Waiting && !MaySpeak(s, a, now)
    ensures var t := Ticked(s, p, a, now);
      && ValidPlan(s, t.plan) && !Talking(t.plan) && t.plan.line == p.line && !t.sent.marker
      && times(t.plan.timeline) == times(p.timeline) + if kind == WaitTimedOut && t.plan.phase == Stalled then [now] else []
  {
    WaitedKeepsValid(s, p, a, now);
  }

  /** A tick of the kind in progress records what it sends. */
  lemma TimesOfSpeaking(s: Script, p: Plan, a: Activity, now: real, times: seq<TimelineEvent> -> seq<real>, kind: EventKind)
    requires Collects(times, kind) && OfFrames(kind) && Good(s) && ValidPlan(s, p) && p.phase == Speaking
    ensures var t := Ticked(s, p, a, now);
      && ValidPlan(s, t.plan)
      && times(t.plan.timeline) == times(p.timeline) + if Marks(s, p, t, kind) then [TimeOfFrame(now, kind)] else []
  {
    TimesOfSpoke(s, p, a, now, times, kind);
    SpokeFrames(s, p, a, now);
  }

  lemma TimesOfTick(s: Script, p: Plan, a: Activity, now: real, times: seq<TimelineEvent> -> seq<real>, kind: EventKind)
    requires Collects(times, kind) && OfFrames(kind) && Good(s) && ValidPlan(s, p)
    ensures var t := Ticked(s, p, a, now);
      && ValidPlan(s, t.plan)
      && times(t.plan.timeline) == times(p.timeline) + if Marks(s, p, t, kind) then [TimeOfFrame(now, kind)] else []
  {
    if p.phase == Waiting {
      if MaySpeak(s, a, now) {
        TimesOfStart(s, p, a, now, times, kind);
      } else {
        TimesOfWait(s, p, a, now, times, kind);
      }
    } else if p.phase == Speaking {
      TimesOfSpeaking(s, p, a, now, times, kind);
    } else if p.phase == Pausing {
      TimesOfPause(s, p, a, now, times, kind);
    }
  }

  /** A wait is given up on the first tick on which its own timeout is up and the line may still not start. */
  lemma GivesUpWhenItsTimeIsUp(s: Script, p: Plan, a: Activity, now: real)
    requires Good(s) && ValidPlan(s, p) && p.phase == Waiting
    ensures var timeout := match s.lines[p.line].waitFor case Greeting => s.timing.greetingTimeout case Reply => s.timing.replyTimeout;
      Ticked(s, p, a, now).plan.phase == Stalled
      <==> !MaySpeak(s, a, now) && now + 0.000001 >= p.waitStarted + timeout
  {
    if MaySpeak(s, a, now) {
      WaitedKeepsValid(s, p, a, now);
      WaitBegins(s, now, Waited(s, p, a, now), a, 0);
    }
  }

  lemma EventTimesCollects(kind: EventKind)
    ensures Collects(timeline => EventTimes(timeline, kind), kind)
  {
    forall timeline: seq<TimelineEvent>, e
      ensures EventTimes(timeline + [e], kind) == EventTimes(timeline, kind) + if e.kind == kind then [e.time] else []
    {
      assert (timeline + [e])[..|timeline|] == timeline;
    }
  }

  /**
   The timeline has a line starting exactly where its first frame is sent, a segment starting exactly where a marked
   frame is, and a line ending exactly where the last of its frames does.
   */
  lemma {:induction false} TimelineTellsWhatWasSent(s: Script, startTime: real, beats: seq<Beat>, kind: EventKind)
    requires Good(s) && OfFrames(kind)
    ensures SentTimes(s, startTime, beats, kind) == EventTimes(Planned(s, startTime, beats).timeline, kind)
  {
    if beats != [] {
      var n := |beats| - 1;
      TimelineTellsWhatWasSent(s, startTime, beats[..n], kind);
      EventTimesCollects(kind);
      TimesOfTick(s, Planned(s, startTime, beats[..n]), beats[n].heard, beats[n].now, timeline => EventTimes(timeline, kind), kind);
    }
  }

  // The planner and its detector together.

  /** What happens on a call: a frame arrives from the bot, or the caller's clock ticks. */
  datatype Moment = Hears(level: real) | Ticks(now: real)

  /** The plan, and everything the detector was given. */
  datatype Call = Call(plan: Plan, inputs: seq<Input>)

  /** The detector's constants: its thresholds, when its first frame starts, and a frame's length. */
  datatype Ear = Ear(thresholds: Thresholds, start: real, frame: real)

  function Detected(ear: Ear, inputs: seq<Input>): Activity {
    Fed(ear.thresholds, ear.start, ear.frame, inputs)
  }

  function CallTick(s: Script, ear: Ear, c: Call, now: real): Tick
    requires Good(s) && ValidPlan(s, c.plan)
  {
    Ticked(s, c.plan, Detected(ear, c.inputs), now)
  }

  function Called(s: Script, ear: Ear, startTime: real, moments: seq<Moment>): (c: Call)
    requires Good(s)
    ensures ValidPlan(s, c.plan)
  {
    if moments == [] then Call(Begun(s, startTime), [MarkAt(startTime)])
    else
      var n := |moments| - 1;
      var c := Called(s, ear, startTime, moments[..n]);
      match moments[n]
      case Hears(level) => c.(inputs := c.inputs + [Frame(level)])
      case Ticks(now) =>
        var t := CallTick(s, ear, c, now);
        TickKeepsValid(s, c.plan, Detected(ear, c.inputs), now);
        Call(t.plan, c.inputs + if t.mark.Some? then [MarkAt(t.mark.value)] else [])
  }

  // When the bot is heard over the caller.

  function OverlapsOf(timeline: seq<TimelineEvent>): seq<TimelineEvent> {
    if timeline == [] then []
    else
      var n := |timeline| - 1;
      OverlapsOf(timeline[..n]) + if timeline[n].kind == Overlap then [timeline[n]] else []
  }

  ghost predicate Gathers(overlaps: seq<TimelineEvent> -> seq<TimelineEvent>) {
    forall timeline, e :: overlaps(timeline + [e]) == overlaps(timeline) + if e.kind == Overlap then [e] else []
  }

  lemma OverlapsOfGathers()
    ensures Gathers(OverlapsOf)
  {
    forall timeline: seq<TimelineEvent>, e
      ensures OverlapsOf(timeline + [e]) == OverlapsOf(timeline) + if e.kind == Overlap then [e] else []
    {
      assert (timeline + [e])[..|timeline|] == timeline;
    }
  }

  /** The line the tick sends a frame or a pause of. */
  function LineOn(p: Plan, q: Plan): Option<nat> {
    if Talking(p) || Opened(q) > Opened(p) then Some(p.line) else None
  }

  /** The bot is speaking when its last active frame ends no sooner than the tick. */
  predicate StillActive(a: Activity, now: real) {
    a.activeEnd.Some? && a.activeEnd.value >= now
  }

  /** A tick of a line records an overlap when the bot is speaking, and none was recorded of that line before. */
  predicate Overlaps(s: Script, p: Plan, q: Plan, a: Activity, now: real, was: seq<TimelineEvent>, become: seq<TimelineEvent>) {
    var on, before := LineOn(p, q), Talking(p) && p.overlapped;
    && (on.Some? ==> on.value < |s.lines|)
    && become == was + (if on.Some? && StillActive(a, now) && !before then [TimelineEvent(now, Overlap, s.lines[on.value].lineId)] else [])
    && (Talking(q) ==> on == Some(q.line) && (q.overlapped <==> before || StillActive(a, now)))
    && (Opened(p) <= Opened(q)) && (on.Some? ==> Opened(q) == on.value + 1)
  }

  /** What a tick of the line being said adds. */
  function OverlapNow(s: Script, p: Plan, a: Activity, now: real): seq<TimelineEvent>
    requires p.line < |s.lines|
  {
    if StillActive(a, now) && !p.overlapped then [TimelineEvent(now, Overlap, s.lines[p.line].lineId)] else []
  }

  lemma OverlapOfNoted(s: Script, p: Plan, a: Activity, now: real, overlaps: seq<TimelineEvent> -> seq<TimelineEvent>)
    requires Gathers(overlaps) && p.line < |s.lines|
    ensures var q := Noted(s, p, a, now);
      && overlaps(q.timeline) == overlaps(p.timeline) + OverlapNow(s, p, a, now)
      && q == p.(timeline := q.timeline, overlapped := p.overlapped || StillActive(a, now))
  {
  }

  lemma OverlapOfSegmentOver(s: Script, p: Plan, end: real, overlaps: seq<TimelineEvent> -> seq<TimelineEvent>)
    requires Gathers(overlaps) && Good(s) && p.line < |s.lines| && p.segment < |s.lines[p.line].segments| && p.phase == Speaking
    ensures var q := SegmentOver(s, p, end);
      overlaps(q.timeline) == overlaps(p.timeline) && (Talking(q) ==> q.overlapped == p.overlapped)
  {
    var over := Recorded(s, p, end, SegmentEnded);
    assert overlaps(over.timeline) == overlaps(p.timeline);
    assert overlaps(Recorded(s, over, end, LineEnded).timeline) == overlaps(p.timeline);
  }

  lemma OverlapOfSpoke(s: Script, p: Plan, a: Activity, now: real, overlaps: seq<TimelineEvent> -> seq<TimelineEvent>)
    requires Gathers(overlaps) && Good(s) && ValidPlan(s, p) && p.phase == Speaking
    ensures var q := Spoke(s, p, a, now).plan;
      && overlaps(q.timeline) == overlaps(p.timeline) + OverlapNow(s, p, a, now)
      && (Talking(q) ==> q.overlapped == (p.overlapped || StillActive(a, now)))
  {
    var noted := Noted(s, p, a, now);
    var r := (if p.frame == 0 then Recorded(s, noted, now, SegmentStarted) else noted).(frame := p.frame + 1);
    OverlapOfNoted(s, p, a, now, overlaps);
    assert overlaps(r.timeline) == overlaps(noted.timeline);
    OverlapOfSegmentOver(s, r, now + FRAME_SECONDS, overlaps);
  }

  lemma OverlapOfStart(s: Script, p: Plan, a: Activity, now: real, overlaps: seq<TimelineEvent> -> seq<TimelineEvent>)
    requires Gathers(overlaps) && Good(s) && ValidPlan(s, p) && p.phase == Waiting && MaySpeak(s, a, now)
    ensures var q := Ticked(s, p, a, now).plan; Overlaps(s, p, q, a, now, overlaps(p.timeline), overlaps(q.timeline))
  {
    var begun := Waited(s, p, a, now);
    StartIsSpoke(s, p, a, now, begun);
    SpokeOpens(s, begun, a, now);
    assert overlaps(begun.timeline) == overlaps(p.timeline);
    OverlapOfSpoke(s, begun, a, now, overlaps);
  }

  lemma OverlapOfWait(s: Script, p: Plan, a: Activity, now: real, overlaps: seq<TimelineEvent> -> seq<TimelineEvent>)
    requires Gathers(overlaps) && Good(s) && ValidPlan(s, p) && !Talking(p) && (p.phase == Waiting ==> !MaySpeak(s, a, now))
    ensures var q := Ticked(s, p, a, now).plan; Overlaps(s, p, q, a, now, overlaps(p.timeline), overlaps(q.timeline))
  {
    if p.phase == Waiting {
      assert overlaps(Waited(s, p, a, now).timeline) == overlaps(p.timeline);
    }
  }

  lemma OverlapOfPause(s: Script, p: Plan, a: Activity, now: real, overlaps: seq<TimelineEvent> -> seq<TimelineEvent>)
    requires Gathers(overlaps) && Good(s) && ValidPlan(s, p) && p.phase == Pausing
    ensures var q := Ticked(s, p, a, now).plan; Overlaps(s, p, q, a, now, overlaps(p.timeline), overlaps(q.timeline))
  {
    OverlapOfNoted(s, p, a, now, overlaps);
    assert Ticked(s, p, a, now).plan == Paused(s, p, a, now) && LineOn(p, Paused(s, p, a, now)) == Some(p.line);
  }

  lemma OverlapOfTick(s: Script, p: Plan, a: Activity, now: real, overlaps: seq<TimelineEvent> -> seq<TimelineEvent>)
    requires Gathers(overlaps) && Good(s) && ValidPlan(s, p)
    ensures var q := Ticked(s, p, a, now).plan; Overlaps(s, p, q, a, now, overlaps(p.timeline), overlaps(q.timeline))
  {
    if p.phase == Waiting && MaySpeak(s, a, now) {
      OverlapOfStart(s, p, a, now, overlaps);
    } else if p.phase == Speaking {
      SpokeOpens(s, p, a, now);
      OverlapOfSpoke(s, p, a, now, overlaps);
    } else if p.phase == Pausing {
      OverlapOfPause(s, p, a, now, overlaps);
    } else {
      OverlapOfWait(s, p, a, now, overlaps);
    }
  }

  /** The lines talked over after the tick: `over` before it, and the line the tick is part of if it is talked over. */
  predicate OverNow(p: Plan, q: Plan, active: bool, over: nat -> bool, k: nat) {
    over(k) || (active && LineOn(p, q) == Some(k))
  }

  ghost predicate FlagTells(p: Plan, over: nat -> bool) {
    (Talking(p) ==> p.overlapped == over(p.line)) && forall k: nat :: k >= Opened(p) ==> !over(k)
  }

  lemma FlagTellsOn(s: Script, p: Plan, q: Plan, a: Activity, now: real, was: seq<TimelineEvent>, become: seq<TimelineEvent>,
                    over: nat -> bool)
    requires Overlaps(s, p, q, a, now, was, become) && FlagTells(p, over)
    ensures FlagTells(q, (k: nat) => OverNow(p, q, StillActive(a, now), over, k))
    ensures var on := LineOn(p, q);
      become == was + if on.Some? && StillActive(a, now) && !over(on.value)
                      then [TimelineEvent(now, Overlap, s.lines[on.value].lineId)] else []
  {
  }

  /** The newest of the bot's spans, by the levels heard, ends no sooner than this. */
  predicate SpanReaches(ear: Ear, levels: seq<real>, now: real) {
    var runs := AllRuns(Tracked(ear.thresholds, ear.frame, levels));
    runs != [] && SpanOf(ear.start, ear.frame, runs[|runs| - 1]).end >= now
  }

  /** After these moments comes a tick of line `k` that the bot's newest span reaches. */
  ghost predicate TalksOver(s: Script, ear: Ear, startTime: real, before: seq<Moment>, m: Moment, k: nat)
    requires Good(s)
  {
    && m.Ticks? && LineOn(Called(s, ear, startTime, before).plan, Called(s, ear, startTime, before + [m]).plan) == Some(k)
    && SpanReaches(ear, Levels(Called(s, ear, startTime, before).inputs), m.now)
  }

  ghost predicate TalkedOver(s: Script, ear: Ear, startTime: real, moments: seq<Moment>, k: nat)
    requires Good(s)
  {
    exists n :: 0 <= n < |moments| && TalksOver(s, ear, startTime, moments[..n], moments[n], k)
  }

  lemma TalkedOverSnoc(s: Script, ear: Ear, startTime: real, before: seq<Moment>, m: Moment, k: nat)
    requires Good(s)
    ensures TalkedOver(s, ear, startTime, before + [m], k)
       <==> TalkedOver(s, ear, startTime, before, k) || TalksOver(s, ear, startTime, before, m, k)
  {
    var more := before + [m];
    forall n | 0 <= n < |before| ensures more[..n] == before[..n] && more[n] == before[n] {
    }
    assert more[..|before|] == before && more[|before|] == m;
    if TalkedOver(s, ear, startTime, before, k) {
      var n :| 0 <= n < |before| && TalksOver(s, ear, startTime, before[..n], before[n], k);
      assert TalksOver(s, ear, startTime, more[..n], more[n], k);
    }
    if TalksOver(s, ear, startTime, before, m, k) {
      assert TalksOver(s, ear, startTime, more[..|before|], more[|before|], k);
    }
  }

  /** The line the tick is part of, if the bot talks over it for the first time on this tick. */
  ghost function FirstTalkedOver(s: Script, ear: Ear, startTime: real, before: seq<Moment>, m: Moment): (k: Option<nat>)
    requires Good(s)
    ensures k.Some? <==> exists j :: TalksOver(s, ear, startTime, before, m, j) && !TalkedOver(s, ear, startTime, before, j)
    ensures k.Some? ==> k.value < |s.lines| && TalksOver(s, ear, startTime, before, m, k.value)
                        && !TalkedOver(s, ear, startTime, before, k.value)
  {
    var p, q := Called(s, ear, startTime, before).plan, Called(s, ear, startTime, before + [m]).plan;
    var on := LineOn(p, q);
    LinesAreTheScripts(s, ear, startTime, before, m);
    if on.Some? && TalksOver(s, ear, startTime, before, m, on.value) && !TalkedOver(s, ear, startTime, before, on.value)
    then on else None
  }

  lemma CalledSnoc(s: Script, ear: Ear, startTime: real, before: seq<Moment>, m: Moment)
    requires Good(s)
    ensures m.Hears? ==> Called(s, ear, startTime, before + [m]).plan == Called(s, ear, startTime, before).plan
    ensures m.Ticks? ==> Called(s, ear, startTime, before + [m]).plan
                         == CallTick(s, ear, Called(s, ear, startTime, before), m.now).plan
  {
    assert (before + [m])[..|before|] == before;
  }

  lemma LinesAreTheScripts(s: Script, ear: Ear, startTime: real, before: seq<Moment>, m: Moment)
    requires Good(s)
    ensures var on := LineOn(Called(s, ear, startTime, before).plan, Called(s, ear, startTime, before + [m]).plan);
      on.Some? ==> on.value < |s.lines|
  {
    var c := Called(s, ear, startTime, before);
    CalledSnoc(s, ear, startTime, before, m);
    if m.Ticks? {
      OverlapsOfGathers();
      OverlapOfTick(s, c.plan, Detected(ear, c.inputs), m.now, OverlapsOf);
    }
  }

  /** For each line, the first of its ticks that the bot talks over, in order. */
  ghost function OverlapsDue(s: Script, ear: Ear, startTime: real, moments: seq<Moment>): seq<TimelineEvent>
    requires Good(s)
  {
    if moments == [] then []
    else
      var n := |moments| - 1;
      var k := FirstTalkedOver(s, ear, startTime, moments[..n], moments[n]);
      OverlapsDue(s, ear, startTime, moments[..n])
      + if k.Some? then [TimelineEvent(moments[n].now, Overlap, s.lines[k.value].lineId)] else []
  }

  ghost function LinesOver(s: Script, ear: Ear, startTime: real, moments: seq<Moment>): nat -> bool
    requires Good(s)
  {
    (k: nat) => TalkedOver(s, ear, startTime, moments, k)
  }

  /** The plan's flag and timeline tell which lines have been talked over, and when. */
  ghost predicate OverlapsTold(s: Script, ear: Ear, startTime: real, moments: seq<Moment>, p: Plan)
    requires Good(s)
  {
    && OverlapsOf(p.timeline) == OverlapsDue(s, ear, startTime, moments)
    && FlagTells(p, LinesOver(s, ear, startTime, moments))
  }

  lemma ActiveToTheSpansEnd(ear: Ear, inputs: seq<Input>, now: real)
    requires ear.frame > 0.0
    ensures StillActive(Detected(ear, inputs), now) <==> SpanReaches(ear, Levels(inputs), now)
  {
    FedTells(ear.thresholds, ear.start, ear.frame, inputs);
    LastIsNewest(ear.thresholds, ear.frame, Levels(inputs));
  }

  lemma DueSnoc(s: Script, ear: Ear, startTime: real, before: seq<Moment>, m: Moment)
    requires Good(s)
    ensures var k := FirstTalkedOver(s, ear, startTime, before, m);
      OverlapsDue(s, ear, startTime, before + [m]) == OverlapsDue(s, ear, startTime, before)
        + if k.Some? then [TimelineEvent(m.now, Overlap, s.lines[k.value].lineId)] else []
  {
    assert (before + [m])[..|before|] == before;
  }

  /** Flags that agree on every line tell the same. */
  lemma SameLines(p: Plan, over: nat -> bool, also: nat -> bool)
    requires FlagTells(p, over) && forall k: nat :: over(k) == also(k)
    ensures FlagTells(p, also)
  {
  }

  lemma OverlapsToldOnTick(s: Script, ear: Ear, startTime: real, before: seq<Moment>, m: Moment, c: Call, p: Plan, q: Plan)
    requires Good(s) && ear.frame > 0.0 && m.Ticks? && OverlapsTold(s, ear, startTime, before, p)
    requires c == Called(s, ear, startTime, before) && p == c.plan && q == Called(s, ear, startTime, before + [m]).plan
    ensures OverlapsTold(s, ear, startTime, before + [m], q)
  {
    var a, over := Detected(ear, c.inputs), LinesOver(s, ear, startTime, before);
    CalledSnoc(s, ear, startTime, before, m);
    OverlapsOfGathers();
    OverlapOfTick(s, p, a, m.now, OverlapsOf);
    ActiveToTheSpansEnd(ear, c.inputs, m.now);
    FlagTellsOn(s, p, q, a, m.now, OverlapsOf(p.timeline), OverlapsOf(q.timeline), over);
    DueSnoc(s, ear, startTime, before, m);
    var after := (k: nat) => OverNow(p, q, StillActive(a, m.now), over, k);
    forall k: nat ensures LinesOver(s, ear, startTime, before + [m])(k) == after(k) {
      TalkedOverSnoc(s, ear, startTime, before, m, k);
    }
    SameLines(q, after, LinesOver(s, ear, startTime, before + [m]));
  }

  lemma OverlapsToldOnFrame(s: Script, ear: Ear, startTime: real, before: seq<Moment>, m: Moment, p: Plan)
    requires Good(s) && m.Hears? && OverlapsTold(s, ear, startTime, before, p)
    ensures OverlapsTold(s, ear, startTime, before + [m], p)
  {
    DueSnoc(s, ear, startTime, before, m);
    forall k: nat ensures LinesOver(s, ear, startTime, before + [m])(k) == LinesOver(s, ear, startTime, before)(k) {
      TalkedOverSnoc(s, ear, startTime, before, m, k);
    }
    SameLines(p, LinesOver(s, ear, startTime, before), LinesOver(s, ear, startTime, before + [m]));
  }

  lemma OverlapsToldAtFirst(s: Script, ear: Ear, startTime: real, none: seq<Moment>)
    requires Good(s) && none == []
    ensures OverlapsTold(s, ear, startTime, none, Called(s, ear, startTime, none).plan)
  {
  }

  lemma OverlapsToldNext(s: Script, ear: Ear, startTime: real, before: seq<Moment>, m: Moment)
    requires Good(s) && ear.frame > 0.0 && OverlapsTold(s, ear, startTime, before, Called(s, ear, startTime, before).plan)
    ensures OverlapsTold(s, ear, startTime, before + [m], Called(s, ear, startTime, before + [m]).plan)
  {
    var c := Called(s, ear, startTime, before);
    if m.Ticks? {
      OverlapsToldOnTick(s, ear, startTime, before, m, c, c.plan, Called(s, ear, startTime, before + [m]).plan);
    } else {
      CalledSnoc(s, ear, startTime, before, m);
      OverlapsToldOnFrame(s, ear, startTime, before, m, c.plan);
    }
  }

  /**
   Over every run of the call, in the levels heard alone: the timeline has an overlap exactly for each line that the
   bot talks over, on the first of the line's ticks that the bot's newest span reaches.
   */
  lemma OverlapsAreTheFirst(s: Script, ear: Ear, startTime: real, moments: seq<Moment>)
    requires Good(s) && ear.frame > 0.0
    ensures OverlapsOf(Called(s, ear, startTime, moments).plan.timeline) == OverlapsDue(s, ear, startTime, moments)
  {
    var told := (ms: seq<Moment>) => OverlapsTold(s, ear, startTime, ms, Called(s, ear, startTime, ms).plan);
    OverlapsToldAtFirst(s, ear, startTime, []);
    forall before, m | told(before) ensures told(before + [m]) {
      OverlapsToldNext(s, ear, startTime, before, m);
    }
    ByAppending(told, moments);
  }

  /** The detector's last mark is input `p`. */
  predicate LastMark(inputs: seq<Input>, p: nat) {
    p < |inputs| && inputs[p].MarkAt? && forall q :: p < q < |inputs| ==> inputs[q].Frame?
  }

  /** Until the script is through, the detector counts from the moment the current wait began. */
  ghost predicate CountsFromTheWait(c: Call) {
    exists p: nat :: LastMark(c.inputs, p) && (c.plan.phase != Finished ==> c.inputs[p].time == c.plan.waitStarted)
  }

  /** A tick marks the detector exactly when it ends a line, and where the next wait begins. */
  lemma TickMarks(s: Script, p: Plan, a: Activity, now: real)
    requires Good(s) && ValidPlan(s, p)
    ensures var t := Ticked(s, p, a, now);
      if t.mark.Some? then t.plan.phase == Finished || (t.plan.phase == Waiting && t.plan.waitStarted == t.mark.value)
      else t.plan.waitStarted == p.waitStarted && (t.plan.phase == Finished ==> p.phase == Finished)
  {
  }

  lemma StillMarked(s: Script, ear: Ear, b: Call, now: real)
    requires Good(s) && ValidPlan(s, b.plan) && CountsFromTheWait(b)
    ensures var t := CallTick(s, ear, b, now);
      CountsFromTheWait(Call(t.plan, b.inputs + if t.mark.Some? then [MarkAt(t.mark.value)] else []))
  {
    var t := CallTick(s, ear, b, now);
    TickMarks(s, b.plan, Detected(ear, b.inputs), now);
    if t.mark.Some? {
      assert LastMark(b.inputs + [MarkAt(t.mark.value)], |b.inputs|);
    } else {
      assert b.inputs + [] == b.inputs;
    }
  }

  lemma StillMarkedHearing(b: Call, level: real)
    requires CountsFromTheWait(b)
    ensures CountsFromTheWait(b.(inputs := b.inputs + [Frame(level)]))
  {
    var p: nat :| LastMark(b.inputs, p) && (b.plan.phase != Finished ==> b.inputs[p].time == b.plan.waitStarted);
    assert LastMark(b.inputs + [Frame(level)], p);
  }

  lemma {:induction false} MarkedWhereTheWaitBegan(s: Script, ear: Ear, startTime: real, moments: seq<Moment>)
    requires Good(s)
    ensures CountsFromTheWait(Called(s, ear, startTime, moments))
  {
    if moments == [] {
      assert LastMark([MarkAt(startTime)], 0);
    } else {
      var n := |moments| - 1;
      var b := Called(s, ear, startTime, moments[..n]);
      MarkedWhereTheWaitBegan(s, ear, startTime, moments[..n]);
      match moments[n]
      case Hears(level) => StillMarkedHearing(b, level);
      case Ticks(now) => StillMarked(s, ear, b, now);
    }
  }

  /**
   Since input `p`, the last mark, the bot has been heard inside the detector's spans for the least it must say,
   counting a run that was pending at the mark if it went on to open a span.
   */
  ghost predicate HeardEnough(s: Script, ear: Ear, inputs: seq<Input>, p: nat)
    requires LastMark(inputs, p)
  {
    var levels, m, carry := Levels(inputs), |Levels(inputs[..p])|, Detected(ear, inputs[..p]).candidateSpoken;
    var runs := AllRuns(Tracked(ear.thresholds, ear.frame, levels));
    && m <= |levels| && ear.thresholds.framesToOpen >= 1 && carry <= Length(ear.frame, ear.thresholds.framesToOpen - 1)
    && Length(ear.frame, Heard(ear.thresholds, ear.start, ear.frame, levels, inputs[p].time, runs, m, |levels|))
       + (if m > 0 && Covered(runs, m - 1) then carry else 0.0) >= s.timing.minimumSpeech - TOLERANCE
  }

  /** Every span so far ended at least the quiet time ago. */
  predicate QuietLongEnough(s: Script, a: Activity, now: real) {
    forall k :: 0 <= k < |SpansSoFar(a)| ==> SpansSoFar(a)[k].end <= now - s.timing.quietBefore + TOLERANCE
  }

  /** The moment is an answer to the wait: enough heard since it began, and quiet for long enough. */
  ghost predicate Answered(s: Script, ear: Ear, c: Call, now: real) {
    && (exists p: nat :: LastMark(c.inputs, p) && c.inputs[p].time == c.plan.waitStarted && HeardEnough(s, ear, c.inputs, p))
    && QuietLongEnough(s, Detected(ear, c.inputs), now)
  }

  lemma ReadyMeansHeard(s: Script, ear: Ear, inputs: seq<Input>, p: nat, now: real)
    requires Sane(ear.thresholds, ear.frame) && LastMark(inputs, p) && MaySpeak(s, Detected(ear, inputs), now)
    ensures HeardEnough(s, ear, inputs, p)
  {
    SpokenSinceMark(ear.thresholds, ear.start, ear.frame, inputs, p);
  }

  lemma ReadyMeansQuiet(s: Script, ear: Ear, inputs: seq<Input>, now: real)
    requires Sane(ear.thresholds, ear.frame) && MaySpeak(s, Detected(ear, inputs), now)
    ensures QuietLongEnough(s, Detected(ear, inputs), now)
  {
    var a := Detected(ear, inputs);
    forall k | 0 <= k < |SpansSoFar(a)| ensures SpansSoFar(a)[k].end <= now - s.timing.quietBefore + TOLERANCE {
      QuietSinceEverySpan(ear.thresholds, ear.start, ear.frame, inputs, k, now);
    }
  }

  lemma ReadyMeansAnswered(s: Script, ear: Ear, c: Call, now: real)
    requires Sane(ear.thresholds, ear.frame) && MaySpeak(s, Detected(ear, c.inputs), now)
    requires CountsFromTheWait(c) && c.plan.phase == Waiting
    ensures Answered(s, ear, c, now)
  {
    var p: nat :| LastMark(c.inputs, p) && c.inputs[p].time == c.plan.waitStarted;
    ReadyMeansHeard(s, ear, c.inputs, p, now);
    ReadyMeansQuiet(s, ear, c.inputs, now);
  }

  /** A line starts only as an answer, counting from where its wait began, and never over the bot. */
  lemma LinesAnswerTheBot(s: Script, ear: Ear, startTime: real, moments: seq<Moment>, now: real)
    requires Good(s) && Sane(ear.thresholds, ear.frame)
    requires var c := Called(s, ear, startTime, moments);
      c.plan.phase == Waiting && Opened(CallTick(s, ear, c, now).plan) > Opened(c.plan)
    ensures Answered(s, ear, Called(s, ear, startTime, moments), now)
  {
    var c := Called(s, ear, startTime, moments);
    MarkedWhereTheWaitBegan(s, ear, startTime, moments);
    TickFrames(s, c.plan, Detected(ear, c.inputs), now);
    ReadyMeansAnswered(s, ear, c, now);
  }
}

/**
 The planner against its own detector, one of the bot's frames between any two ticks: in whole ticks it is a call of
 `Pace`, so how long it can last, and which lines it can say, are known exactly.
 */
module PlannerPace {
  import opened Sequences
  import opened DownlinkActivity
  import opened Planner = ScriptPlanner
  import Pace

  /**
   The detector's thresholds, when the call starts, and when the frames come: one between any two ticks, each
   stamped `after` the tick before it, and with `early` one more before the first tick.
   */
  datatype Setup = Setup(th: Thresholds, startTime: real, early: bool, after: real)

  /** A tick and then a frame with the tick's own time. */
  function TickFirst(th: Thresholds, startTime: real): Setup {
    Setup(th, startTime, false, 0.0)
  }

  /** A frame, and then the tick with the frame's own time. */
  function FrameFirst(th: Thresholds, startTime: real): Setup {
    Setup(th, startTime, true, FRAME_SECONDS)
  }

  /** No frame is stamped before the tick it comes after. */
  predicate Fine(x: Setup) {
    Sane(x.th, FRAME_SECONDS) && x.after >= 0.0
  }

  function Early(x: Setup): nat {
    if x.early then 1 else 0
  }

  function EarOf(x: Setup): Ear {
    Ear(x.th, x.startTime + x.after - Length(FRAME_SECONDS, Early(x)), FRAME_SECONDS)
  }

  /** The script and the thresholds in whole ticks. */
  function CourseOf(s: Script, x: Setup): Pace.Course
    requires Good(s) && Fine(x)
  {
    Pace.Course(seq(|s.lines|, k requires 0 <= k < |s.lines| => WaitTicks(Timeout(s, k))),
                seq(|s.lines|, k requires 0 <= k < |s.lines| => |LineFrames(s, s.lines[k], 0)|),
                WaitTicks(s.timing.minimumSpeech), WaitTicks(s.timing.quietBefore + x.after),
                Max(1, WaitTicks(x.th.secondsToClose)), x.th.framesToOpen,
                if x.after < FRAME_SECONDS then 1 else 0, Early(x))
  }

  /** Some speech and some quiet is asked for before a line, beyond the tolerance. */
  predicate Demanding(s: Script) {
    s.timing.minimumSpeech > TOLERANCE && s.timing.quietBefore > TOLERANCE
  }

  lemma CourseIsProper(s: Script, x: Setup)
    requires Good(s) && Fine(x) && Demanding(s)
    ensures Pace.Proper(CourseOf(s, x))
  {
    TimesOutIff(s.timing.minimumSpeech, 0);
    TimesOutIff(s.timing.quietBefore + x.after, 0);
    forall k | 0 <= k < |s.lines| ensures |LineFrames(s, s.lines[k], 0)| > 0 {
      LineHasFrames(s, s.lines[k]);
    }
  }

  // The planner's place.

  /** The planner's place, in ticks. */
  predicate Stands(s: Script, startTime: real, p: Plan, t: Pace.Stand)
    requires Good(s) && ValidPlan(s, p)
  {
    match t
    case Wait(k, w) => p.phase == Waiting && p.line == k && p.waitStarted == TickTime(startTime, w)
    case Talk(k, left) => Talking(p) && p.line == k && |Remaining(s, p)| == left
    case Over(k) => Done(p) && p.line == k
  }

  /** A speaking or pausing tick that leaves nothing of the line marks the detector at its end, and no other does. */
  lemma LineEnds(s: Script, p: Plan, a: Activity, now: real)
    requires Good(s) && ValidPlan(s, p) && Talking(p)
    ensures var t := Ticked(s, p, a, now);
      && ValidPlan(s, t.plan)
      && (if |Remaining(s, p)| == 1
          then t.mark == Some(now + FRAME_SECONDS) && t.plan.line == p.line + 1
               && (if p.line + 1 < |s.lines| then t.plan.phase == Waiting && t.plan.waitStarted == now + FRAME_SECONDS
                   else t.plan.phase == Finished)
          else t.mark == None && t.plan.line == p.line && Talking(t.plan) && |Remaining(s, t.plan)| == |Remaining(s, p)| - 1)
  {
    var t := Ticked(s, p, a, now);
    TickFrames(s, p, a, now);
    RemainingWhileTalking(s, t.plan);
    assert |[t.sent] + Remaining(s, t.plan)| == 1 + |Remaining(s, t.plan)|;
    MarksTheEnd(s, p, a, now);
  }

  lemma MarksTheEnd(s: Script, p: Plan, a: Activity, now: real)
    requires Good(s) && ValidPlan(s, p) && Talking(p)
    ensures var t := Ticked(s, p, a, now);
      if Talking(t.plan) then t.mark == None && t.plan.line == p.line
      else && t.mark == Some(now + FRAME_SECONDS) && t.plan.line == p.line + 1
           && (if p.line + 1 < |s.lines| then t.plan.phase == Waiting && t.plan.waitStarted == now + FRAME_SECONDS
               else t.plan.phase == Finished)
  {
  }

  /** A tick inside a line, or one that starts it, moves the planner's place. */
  lemma TalkMoves(s: Script, x: Setup, p: Plan, a: Activity, n: nat)
    requires Good(s) && Fine(x) && Demanding(s) && ValidPlan(s, p) && Talking(p)
    ensures var tick, left := Ticked(s, p, a, TickTime(x.startTime, n)), |Remaining(s, p)|;
      && ValidPlan(s, tick.plan)
      && Stands(s, x.startTime, tick.plan, Pace.Sends(CourseOf(s, x), p.line, left, n))
      && tick.mark == if left <= 1 then Some(TickTime(x.startTime, n + 1)) else None
  {
    RemainingWhileTalking(s, p);
    LineEnds(s, p, a, TickTime(x.startTime, n));
  }

  /** One tick moves the planner's place as `Pace` says, and marks the detector where a line ends. */
  lemma TickMoves(s: Script, x: Setup, p: Plan, a: Activity, t: Pace.Stand, n: nat)
    requires Good(s) && Fine(x) && Demanding(s)
    requires ValidPlan(s, p) && Stands(s, x.startTime, p, t) && Pace.Placed(CourseOf(s, x), t) && (t.Wait? ==> t.since <= n)
    ensures var ready, tick := MaySpeak(s, a, TickTime(x.startTime, n)), Ticked(s, p, a, TickTime(x.startTime, n));
      && ValidPlan(s, tick.plan)
      && Stands(s, x.startTime, tick.plan, Pace.Moves(CourseOf(s, x), t, n, ready))
      && tick.mark == if Pace.Ends(CourseOf(s, x), t, ready) then Some(TickTime(x.startTime, n + 1)) else None
  {
    var now := TickTime(x.startTime, n);
    if t.Talk? {
      TalkMoves(s, x, p, a, n);
    } else if t.Wait? && MaySpeak(s, a, now) {
      StartsSpeaking(s, p, a, now, n, n);
      TalkMoves(s, x, Waited(s, p, a, now), a, n);
    } else if t.Wait? {
      LengthAdds(FRAME_SECONDS, t.since, n - t.since);
      TimesOutIff(Timeout(s, p.line), n - t.since);
    }
  }

  // The detector.

  function SoundOf(th: Thresholds, level: real): Pace.Sound {
    if level >= th.loud then Pace.Loud else if level >= th.quiet then Pace.Between else Pace.Below
  }

  /** The tick on which the last active frame was over: that of the frame before the first tick is over on tick 0. */
  function EndTick(x: Setup, last: Option<nat>): int {
    if last.None? then 0 else last.value + 1 - Early(x)
  }

  predicate SameTrack(x: Setup, b: Pace.Bot, d: Track) {
    && (b.open <==> d.open.Some?) && (b.ever <==> d.last.Some?)
    && b.end == EndTick(x, d.last) && b.candidate == d.candidate
  }

  /** The track and the running totals, in ticks. */
  predicate Counts(x: Setup, b: Pace.Bot, d: Track, spoken: real, pending: real) {
    SameTrack(x, b, d) && spoken == Length(FRAME_SECONDS, b.heard) && pending == Length(FRAME_SECONDS, b.pending)
  }

  /** One more frame, `i`, moves the track as `Pace` says. */
  lemma TrackMoves(s: Script, x: Setup, b: Pace.Bot, d: Track, i: nat, n: int, level: real, counts: bool)
    requires Good(s) && Fine(x) && Fits(d, i) && i == n + Early(x) && SameTrack(x, b, d)
    ensures SameTrack(x, Pace.Hear(CourseOf(s, x), b, n, SoundOf(x.th, level), counts), TrackStep(x.th, FRAME_SECONDS, d, i, level))
  {
    if d.open.Some? {
      TimesOutIff(x.th.secondsToClose, i - d.last.value);
    }
  }

  /** The frame after tick `n` counts since a mark at tick `mark`, unless the mark is at the next tick and it is lost. */
  lemma Stamped(s: Script, x: Setup, i: nat, n: int, level: real, mark: nat)
    requires Good(s) && Fine(x) && i == n + Early(x) && mark <= n + 1
    ensures var ear, c := EarOf(x), CourseOf(s, x);
      Counted(x.th, ear.start, ear.frame, i, level, TickTime(x.startTime, mark))
      == if level >= x.th.loud && mark + c.lost <= n + 1 then 1 else 0
  {
    LengthInSeconds(i);
    LengthInSeconds(Early(x));
    LengthInSeconds(mark);
  }

  /** And the totals. */
  lemma TotalsMove(s: Script, x: Setup, a: Activity, b: Pace.Bot, d: Track, i: nat, n: int, level: real, mark: nat)
    requires Good(s) && Fine(x) && i == n + Early(x) && mark <= n + 1 && Tells(EarOf(x).start, FRAME_SECONDS, a, d, i)
    requires Counts(x, b, d, a.spoken, a.candidateSpoken) && a.mark == Some(TickTime(x.startTime, mark))
    ensures var e, c := Observed(x.th, FRAME_SECONDS, a, TimeOf(EarOf(x).start, FRAME_SECONDS, i), level), CourseOf(s, x);
      && e.mark == a.mark
      && Counts(x, Pace.Hear(c, b, n, SoundOf(x.th, level), mark + c.lost <= n + 1), TrackStep(x.th, FRAME_SECONDS, d, i, level),
                e.spoken, e.candidateSpoken)
  {
    var counted := Counted(x.th, EarOf(x).start, FRAME_SECONDS, i, level, TickTime(x.startTime, mark));
    ObservedTotals(x.th, EarOf(x).start, FRAME_SECONDS, a, d, i, level, TickTime(x.startTime, mark));
    TrackMoves(s, x, b, d, i, n, level, mark + CourseOf(s, x).lost <= n + 1);
    Stamped(s, x, i, n, level, mark);
    LengthAdds(FRAME_SECONDS, b.heard, counted);
    LengthAdds(FRAME_SECONDS, b.pending, counted);
    LengthAdds(FRAME_SECONDS, b.heard, b.pending + counted);
  }

  /** Ready to speak is the same in seconds and in ticks. */
  lemma ReadyInTicks(s: Script, x: Setup, a: Activity, b: Pace.Bot, d: Track, n: nat)
    requires Good(s) && Fine(x) && Tells(EarOf(x).start, FRAME_SECONDS, a, d, n + Early(x))
    requires Counts(x, b, d, a.spoken, a.candidateSpoken)
    ensures MaySpeak(s, a, TickTime(x.startTime, n)) <==> Pace.Ready(CourseOf(s, x), b, n)
  {
    TimesOutIff(s.timing.minimumSpeech, b.heard);
    if d.last.Some? {
      var quiet := n - b.end;
      LengthInSeconds(d.last.value + 1);
      LengthInSeconds(Early(x));
      LengthInSeconds(n);
      LengthInSeconds(quiet);
      assert n as real == quiet as real + (d.last.value + 1) as real - Early(x) as real;
      TimesOutIff(s.timing.quietBefore + x.after, quiet);
    }
  }

  // The two together.

  /** A bot's frames as they reach the detector. */
  function Moments(x: Setup, first: real, levels: seq<real>): seq<Moment> {
    if levels == [] then if x.early then [Hears(first)] else []
    else
      var n := |levels| - 1;
      Moments(x, first, levels[..n]) + [Ticks(TickTime(x.startTime, n)), Hears(levels[n])]
  }

  /** The call such a bot makes. */
  function Paced(s: Script, x: Setup, first: real, levels: seq<real>): Call
    requires Good(s)
  {
    Called(s, EarOf(x), x.startTime, Moments(x, first, levels))
  }

  /** The call is where `Pace` says, the last mark having been made at tick `mark`. */
  ghost predicate Matches(s: Script, x: Setup, c: Call, p: Pace.Call, n: nat, mark: nat)
    requires Good(s) && Fine(x)
  {
    var a := Detected(EarOf(x), c.inputs);
    && ValidPlan(s, c.plan) && Stands(s, x.startTime, c.plan, p.stand) && Pace.Placed(CourseOf(s, x), p.stand)
    && (p.stand.Wait? ==> p.stand.since <= n) && |Levels(c.inputs)| == n + Early(x)
    && Counts(x, p.bot, Tracked(x.th, FRAME_SECONDS, Levels(c.inputs)), a.spoken, a.candidateSpoken)
    && a.mark == Some(TickTime(x.startTime, mark)) && mark <= n
  }

  lemma FedMark(ear: Ear, inputs: seq<Input>, time: real)
    ensures Levels(inputs + [MarkAt(time)]) == Levels(inputs)
    ensures Detected(ear, inputs + [MarkAt(time)]) == Marked(Detected(ear, inputs), time)
  {
    assert (inputs + [MarkAt(time)])[..|inputs|] == inputs;
  }

  lemma FedLevel(ear: Ear, inputs: seq<Input>, level: real)
    ensures var more := inputs + [Frame(level)];
      && Levels(more) == Levels(inputs) + [level]
      && Detected(ear, more)
         == Observed(ear.thresholds, ear.frame, Detected(ear, inputs), TimeOf(ear.start, ear.frame, |Levels(inputs)|), level)
      && Tracked(ear.thresholds, ear.frame, Levels(more))
         == TrackStep(ear.thresholds, ear.frame, Tracked(ear.thresholds, ear.frame, Levels(inputs)), |Levels(inputs)|, level)
  {
    var more := inputs + [Frame(level)];
    assert more[..|more| - 1] == inputs;
    FedFrame(ear.thresholds, ear.start, ear.frame, more);
  }

  /** The planner's tick: the mark it makes, if it ends a line, is at the next tick. */
  lemma TickMatches(s: Script, x: Setup, c: Call, p: Pace.Call, n: nat, mark: nat)
    requires Good(s) && Fine(x) && Demanding(s) && Matches(s, x, c, p, n, mark)
    ensures var ready := Pace.Ready(CourseOf(s, x), p.bot, n);
      var t, ends := CallTick(s, EarOf(x), c, TickTime(x.startTime, n)), Pace.Ends(CourseOf(s, x), p.stand, ready);
      && ValidPlan(s, t.plan) && Stands(s, x.startTime, t.plan, Pace.Moves(CourseOf(s, x), p.stand, n, ready))
      && t.mark == if ends then Some(TickTime(x.startTime, n + 1)) else None
  {
    var a := Detected(EarOf(x), c.inputs);
    FedTells(x.th, EarOf(x).start, FRAME_SECONDS, c.inputs);
    ReadyInTicks(s, x, a, p.bot, Tracked(x.th, FRAME_SECONDS, Levels(c.inputs)), n);
    TickMoves(s, x, c.plan, a, p.stand, n);
  }

  /** What the detector was given, once a tick is over: its mark, if any, and the frame. */
  function InputsAfter(inputs: seq<Input>, mark: Option<real>, level: real): seq<Input> {
    inputs + (if mark.Some? then [MarkAt(mark.value)] else []) + [Frame(level)]
  }

  /** The detector, in ticks, once frame `n + Early(x) - 1` has been heard and tick `mark` was marked last. */
  ghost predicate Hearing(x: Setup, inputs: seq<Input>, b: Pace.Bot, n: int, mark: nat) {
    var a := Detected(EarOf(x), inputs);
    && |Levels(inputs)| == n + Early(x) && a.mark == Some(TickTime(x.startTime, mark))
    && Counts(x, b, Tracked(x.th, FRAME_SECONDS, Levels(inputs)), a.spoken, a.candidateSpoken)
  }

  lemma LevelMatches(s: Script, x: Setup, inputs: seq<Input>, b: Pace.Bot, n: int, mark: nat, level: real)
    requires Good(s) && Fine(x) && mark <= n + 1 && Hearing(x, inputs, b, n, mark)
    ensures n >= -1
    ensures var c := CourseOf(s, x);
      Hearing(x, inputs + [Frame(level)], Pace.Hear(c, b, n, SoundOf(x.th, level), mark + c.lost <= n + 1), n + 1, mark)
  {
    var a := Detected(EarOf(x), inputs);
    FedTells(x.th, EarOf(x).start, FRAME_SECONDS, inputs);
    TotalsMove(s, x, a, b, Tracked(x.th, FRAME_SECONDS, Levels(inputs)), n + Early(x), n, level, mark);
    FedLevel(EarOf(x), inputs, level);
  }

  lemma FrameMatches(s: Script, x: Setup, inputs: seq<Input>, b: Pace.Bot, n: nat, mark: nat, ends: bool, level: real)
    requires Good(s) && Fine(x) && mark <= n && Hearing(x, inputs, b, n, mark)
    ensures var c, more := CourseOf(s, x), InputsAfter(inputs, if ends then Some(TickTime(x.startTime, n + 1)) else None, level);
      Hearing(x, more, Pace.Hear(c, if ends then b.(heard := 0) else b, n, SoundOf(x.th, level), !ends || c.lost == 0),
              n + 1, if ends then n + 1 else mark)
  {
    var time := TickTime(x.startTime, n + 1);
    if ends {
      FedMark(EarOf(x), inputs, time);
      LevelMatches(s, x, inputs + [MarkAt(time)], b.(heard := 0), n, n + 1, level);
    } else {
      assert inputs + [] == inputs;
      LevelMatches(s, x, inputs, b, n, mark, level);
    }
  }

  function SoundsOf(th: Thresholds, levels: seq<real>): (sounds: seq<Pace.Sound>)
    ensures |sounds| == |levels|
  {
    seq(|levels|, i requires 0 <= i < |levels| => SoundOf(th, levels[i]))
  }

  lemma CalledTick(s: Script, ear: Ear, startTime: real, moments: seq<Moment>, now: real)
    requires Good(s)
    ensures var c := Called(s, ear, startTime, moments);
      var t := CallTick(s, ear, c, now);
      Called(s, ear, startTime, moments + [Ticks(now)])
      == Call(t.plan, c.inputs + if t.mark.Some? then [MarkAt(t.mark.value)] else [])
  {
    assert (moments + [Ticks(now)])[..|moments|] == moments;
  }

  lemma CalledHears(s: Script, ear: Ear, startTime: real, moments: seq<Moment>, level: real)
    requires Good(s)
    ensures var c := Called(s, ear, startTime, moments);
      Called(s, ear, startTime, moments + [Hears(level)]) == c.(inputs := c.inputs + [Frame(level)])
  {
    assert (moments + [Hears(level)])[..|moments|] == moments;
  }

  /** One more tick and one more frame of a call. */
  lemma PacedSnoc(s: Script, x: Setup, first: real, levels: seq<real>, level: real)
    requires Good(s)
    ensures var c := Paced(s, x, first, levels);
      var t := CallTick(s, EarOf(x), c, TickTime(x.startTime, |levels|));
      Paced(s, x, first, levels + [level]) == Call(t.plan, InputsAfter(c.inputs, t.mark, level))
  {
    var n, ear := |levels|, EarOf(x);
    var before, all := Moments(x, first, levels), levels + [level];
    var ticked := before + [Ticks(TickTime(x.startTime, n))];
    assert all[..n] == levels;
    assert Moments(x, first, all) == ticked + [Hears(level)];
    CalledTick(s, ear, x.startTime, before, TickTime(x.startTime, n));
    CalledHears(s, ear, x.startTime, ticked, level);
  }

  /** One more of both keeps them matched. */
  lemma MatchesOn(s: Script, x: Setup, c: Call, p: Pace.Call, n: nat, mark: nat, level: real)
    requires Good(s) && Fine(x) && Demanding(s) && Matches(s, x, c, p, n, mark)
    ensures var t := CallTick(s, EarOf(x), c, TickTime(x.startTime, n));
      var ends := Pace.Ends(CourseOf(s, x), p.stand, Pace.Ready(CourseOf(s, x), p.bot, n));
      Matches(s, x, Call(t.plan, InputsAfter(c.inputs, t.mark, level)),
              Pace.Step(CourseOf(s, x), p, n, SoundOf(x.th, level)), n + 1, if ends then n + 1 else mark)
  {
    var ends := Pace.Ends(CourseOf(s, x), p.stand, Pace.Ready(CourseOf(s, x), p.bot, n));
    CourseIsProper(s, x);
    TickMatches(s, x, c, p, n, mark);
    FrameMatches(s, x, c.inputs, p.bot, n, mark, ends, level);
    Pace.StepPlaced(CourseOf(s, x), p, n, SoundOf(x.th, level));
  }

  ghost predicate Matched(s: Script, x: Setup, first: real, levels: seq<real>)
    requires Good(s) && Fine(x) && Demanding(s)
  {
    CourseIsProper(s, x);
    exists mark: nat :: Matches(s, x, Paced(s, x, first, levels), PaceOf(s, x, first, levels), |levels|, mark)
  }

  /** The call of `Pace` it is. */
  function PaceOf(s: Script, x: Setup, first: real, levels: seq<real>): Pace.Call
    requires Good(s) && Fine(x) && Demanding(s)
  {
    CourseIsProper(s, x);
    Pace.Run(CourseOf(s, x), SoundOf(x.th, first), SoundsOf(x.th, levels))
  }

  /** The detector has been marked, and has heard nothing. */
  lemma HearingAtFirst(x: Setup, none: seq<Input>)
    requires none == []
    ensures Hearing(x, none + [MarkAt(x.startTime)], Pace.SILENT_BOT, 0 - Early(x), 0)
  {
    FedMark(EarOf(x), none, x.startTime);
  }

  lemma CallAtFirst(s: Script, x: Setup, first: real, none: seq<real>, unmarked: seq<Input>)
    requires Good(s) && none == [] && unmarked == []
    ensures Paced(s, x, first, none)
         == Call(Planner.Begun(s, x.startTime), unmarked + [MarkAt(x.startTime)] + if x.early then [Frame(first)] else [])
  {
    var unheard: seq<Moment> := [];
    if x.early {
      CalledHears(s, EarOf(x), x.startTime, unheard, first);
      assert unheard + [Hears(first)] == [Hears(first)];
    }
  }

  /** The frame before the first tick, if there is one. */
  lemma MatchedAtFirst(s: Script, x: Setup, first: real, none: seq<real>)
    requires Good(s) && Fine(x) && Demanding(s) && none == []
    ensures Matched(s, x, first, none)
  {
    var unmarked: seq<Input> := [];
    CourseIsProper(s, x);
    CallAtFirst(s, x, first, none, unmarked);
    HearingAtFirst(x, unmarked);
    var inputs := unmarked + [MarkAt(x.startTime)];
    assert inputs + [] == inputs;
    if x.early {
      LevelMatches(s, x, inputs, Pace.SILENT_BOT, -1, 0, first);
    }
    assert Hearing(x, Paced(s, x, first, none).inputs, PaceOf(s, x, first, none).bot, 0, 0);
    assert Matches(s, x, Paced(s, x, first, none), PaceOf(s, x, first, none), 0, 0);
  }

  lemma StepIs(s: Script, x: Setup, first: real, before: seq<real>, level: real)
    requires Good(s) && Fine(x) && Demanding(s) && Pace.Proper(CourseOf(s, x))
    ensures Pace.Placed(CourseOf(s, x), PaceOf(s, x, first, before).stand)
    ensures PaceOf(s, x, first, before + [level])
         == Pace.Step(CourseOf(s, x), PaceOf(s, x, first, before), |before|, SoundOf(x.th, level))
  {
    Pace.RunSnoc(CourseOf(s, x), SoundOf(x.th, first), SoundsOf(x.th, before), SoundOf(x.th, level));
    assert SoundsOf(x.th, before) + [SoundOf(x.th, level)] == SoundsOf(x.th, before + [level]);
  }

  lemma MatchedNext(s: Script, x: Setup, c: Call, p: Pace.Call, n: nat, mark: nat, level: real, c2: Call, p2: Pace.Call)
    returns (next: nat)
    requires Good(s) && Fine(x) && Demanding(s) && Matches(s, x, c, p, n, mark)
    requires p2 == Pace.Step(CourseOf(s, x), p, n, SoundOf(x.th, level))
    requires var t := CallTick(s, EarOf(x), c, TickTime(x.startTime, n));
      c2 == Call(t.plan, InputsAfter(c.inputs, t.mark, level))
    ensures Matches(s, x, c2, p2, n + 1, next)
  {
    MatchesOn(s, x, c, p, n, mark, level);
    next := if Pace.Ends(CourseOf(s, x), p.stand, Pace.Ready(CourseOf(s, x), p.bot, n)) then n + 1 else mark;
  }

  lemma MatchedOn(s: Script, x: Setup, first: real, before: seq<real>, level: real)
    requires Good(s) && Fine(x) && Demanding(s) && Matched(s, x, first, before)
    ensures Matched(s, x, first, before + [level])
  {
    CourseIsProper(s, x);
    var c, p := Paced(s, x, first, before), PaceOf(s, x, first, before);
    var mark: nat :| Matches(s, x, c, p, |before|, mark);
    PacedSnoc(s, x, first, before, level);
    StepIs(s, x, first, before, level);
    var next := MatchedNext(s, x, c, p, |before|, mark, level, Paced(s, x, first, before + [level]),
                            PaceOf(s, x, first, before + [level]));
  }

  /** The planner and its detector, one frame between any two ticks, are a call of `Pace`. */
  lemma PacedIsACall(s: Script, x: Setup, first: real, levels: seq<real>)
    requires Good(s) && Fine(x) && Demanding(s)
    ensures Matched(s, x, first, levels)
  {
    var matched := heard => Matched(s, x, first, heard);
    MatchedAtFirst(s, x, first, []);
    forall before, level | matched(before) ensures matched(before + [level]) {
      MatchedOn(s, x, first, before, level);
    }
    ByAppending(matched, levels);
  }

  // How long the call can last, and what can be said in it.

  /** Levels that sound so: the loud level, or one below the quiet level. */
  function LevelsOf(th: Thresholds, sounds: seq<Pace.Sound>): (levels: seq<real>)
    ensures |levels| == |sounds|
  {
    seq(|sounds|, i requires 0 <= i < |sounds| => if sounds[i] == Pace.Loud then th.loud else th.quiet - 1.0)
  }

  lemma LevelsSoundSo(th: Thresholds, sounds: seq<Pace.Sound>)
    requires Sane(th, FRAME_SECONDS) && Pace.Plain(sounds)
    ensures SoundsOf(th, LevelsOf(th, sounds)) == sounds
  {
  }

  lemma PlacesAgree(s: Script, x: Setup, first: real, levels: seq<real>)
    requires Good(s) && Fine(x) && Demanding(s)
    ensures Pace.Proper(CourseOf(s, x))
    ensures var p, t := Paced(s, x, first, levels).plan, PaceOf(s, x, first, levels).stand;
      (Done(p) <==> t.Over?) && Planner.Opened(p) == Pace.Opened(t)
  {
    CourseIsProper(s, x);
    PacedIsACall(s, x, first, levels);
  }

  /** The most ticks a call can last: every wait to its last tick, and a wait too short to be answered the last. */
  function LongestCall(s: Script, x: Setup): nat
    requires Good(s) && Fine(x) && Demanding(s)
  {
    CourseIsProper(s, x);
    Pace.Longest(CourseOf(s, x), 0)
  }

  /** Whatever the bot says, the planner is through by then. */
  lemma ThroughByTheLongest(s: Script, x: Setup, first: real, levels: seq<real>)
    requires Good(s) && Fine(x) && Demanding(s) && |levels| >= LongestCall(s, x)
    ensures Done(Paced(s, x, first, levels).plan)
  {
    PlacesAgree(s, x, first, levels);
    Pace.OverByTheLongest(CourseOf(s, x), SoundOf(x.th, first), SoundsOf(x.th, levels));
  }

  /** And some bot, loud from the first, keeps it from being through any sooner. */
  lemma LongestCallIsMade(s: Script, x: Setup) returns (levels: seq<real>)
    requires Good(s) && Fine(x) && Demanding(s) && s.lines != []
    ensures |levels| == LongestCall(s, x) - 1 && !Done(Paced(s, x, x.th.loud, levels).plan)
  {
    CourseIsProper(s, x);
    var sounds := Pace.LongestIsReached(CourseOf(s, x), Pace.Loud);
    levels := LevelsOf(x.th, sounds);
    LevelsSoundSo(x.th, sounds);
    PlacesAgree(s, x, x.th.loud, levels);
  }

  /** Whatever the bot says, the planner is through once its timeouts and its lines, summed, have gone by. */
  ghost predicate AlwaysInTime(s: Script, x: Setup)
    requires Good(s)
  {
    forall first, levels :: |levels| as real * FRAME_SECONDS >= TotalSeconds(s, 0) ==> Done(Paced(s, x, first, levels).plan)
  }

  /** That holds exactly when the longest call, in ticks, is less than one tick longer than the sum. */
  lemma AlwaysInTimeIff(s: Script, x: Setup)
    requires Good(s) && Fine(x) && Demanding(s)
    ensures AlwaysInTime(s, x) <==> LongestCall(s, x) as real * FRAME_SECONDS < TotalSeconds(s, 0) + FRAME_SECONDS
  {
    var longest := LongestCall(s, x);
    if longest as real * FRAME_SECONDS < TotalSeconds(s, 0) + FRAME_SECONDS {
      forall first, levels: seq<real> | |levels| as real * FRAME_SECONDS >= TotalSeconds(s, 0)
        ensures Done(Paced(s, x, first, levels).plan)
      {
        ThroughByTheLongest(s, x, first, levels);
      }
    } else if s.lines != [] {
      var levels := LongestCallIsMade(s, x);
    }
  }

  /** Some bot has line `k` said. */
  ghost predicate CanBeSaid(s: Script, x: Setup, k: nat)
    requires Good(s)
  {
    exists first, levels :: Planner.Opened(Paced(s, x, first, levels).plan) > k
  }

  /** That is so exactly when its wait, and every one before it, is long enough to be answered. */
  lemma LineIsSaidIff(s: Script, x: Setup, k: nat)
    requires Good(s) && Fine(x) && Demanding(s) && k < |s.lines|
    ensures Pace.Proper(CourseOf(s, x))
    ensures CanBeSaid(s, x, k) <==> forall j :: 0 <= j <= k ==> Pace.Startable(CourseOf(s, x), j)
  {
    CourseIsProper(s, x);
    var c := CourseOf(s, x);
    Pace.LineStartsIff(c, k);
    forall first, levels: seq<real> | Planner.Opened(Paced(s, x, first, levels).plan) > k ensures Pace.AllStartable(c, k + 1) {
      PlacesAgree(s, x, first, levels);
      assert Pace.Opened(Pace.Run(c, SoundOf(x.th, first), SoundsOf(x.th, levels)).stand) > k;
    }
    if Pace.AllStartable(c, k + 1) {
      var sounds :| Pace.Plain(sounds) && Pace.Opened(Pace.Run(c, Pace.Loud, sounds).stand) > k;
      LevelsSoundSo(x.th, sounds);
      PlacesAgree(s, x, x.th.loud, LevelsOf(x.th, sounds));
      assert Planner.Opened(Paced(s, x, x.th.loud, LevelsOf(x.th, sounds)).plan) > k;
    }
  }

  // However the frames come.

  lemma LaterTakesLonger(a: real, b: real)
    requires a <= b
    ensures WaitTicks(a) <= WaitTicks(b)
  {
    TimesOutIff(b, WaitTicks(b));
    TimesOutIff(a, WaitTicks(b));
  }

  /** With the frame of a line's last tick lost, and with none lost, the soonest frames: at once, or a tick later. */
  function Soonest(x: Setup): Setup {
    x.(early := true, after := if x.after < FRAME_SECONDS then 0.0 else FRAME_SECONDS)
  }

  lemma SoonestIsQuickest(s: Script, x: Setup)
    requires Good(s) && Fine(x) && Demanding(s)
    ensures Pace.Proper(CourseOf(s, x)) && Pace.Proper(CourseOf(s, Soonest(x)))
    ensures Pace.Slower(CourseOf(s, Soonest(x)), CourseOf(s, x))
  {
    CourseIsProper(s, x);
    CourseIsProper(s, Soonest(x));
    LaterTakesLonger(s.timing.quietBefore + Soonest(x).after, s.timing.quietBefore + x.after);
    assert CourseOf(s, Soonest(x)).waits == CourseOf(s, x).waits && CourseOf(s, Soonest(x)).lengths == CourseOf(s, x).lengths;
  }

  ghost predicate InTimeHowever(s: Script, th: Thresholds, startTime: real)
    requires Good(s)
  {
    forall early, after :: after >= 0.0 ==> AlwaysInTime(s, Setup(th, startTime, early, after))
  }

  /** However the frames come the planner is through in time exactly when it is at both ends: at once, or a tick later. */
  lemma InTimeHoweverIff(s: Script, th: Thresholds, startTime: real)
    requires Good(s) && Sane(th, FRAME_SECONDS) && Demanding(s)
    ensures InTimeHowever(s, th, startTime)
       <==> Max(LongestCall(s, Setup(th, startTime, true, 0.0)), LongestCall(s, FrameFirst(th, startTime))) as real * FRAME_SECONDS
            < TotalSeconds(s, 0) + FRAME_SECONDS
  {
    var soon, late := Setup(th, startTime, true, 0.0), FrameFirst(th, startTime);
    AlwaysInTimeIff(s, soon);
    AlwaysInTimeIff(s, late);
    if AlwaysInTime(s, soon) && AlwaysInTime(s, late) {
      forall early, after | after >= 0.0 ensures AlwaysInTime(s, Setup(th, startTime, early, after)) {
        var x := Setup(th, startTime, early, after);
        SoonestIsQuickest(s, x);
        Pace.SlowerIsShorter(CourseOf(s, Soonest(x)), CourseOf(s, x), 0);
        AlwaysInTimeIff(s, x);
      }
    }
  }

  lemma SaidSoonest(s: Script, x: Setup, k: nat)
    requires Good(s) && Fine(x) && Demanding(s) && k < |s.lines| && CanBeSaid(s, x, k)
    ensures CanBeSaid(s, Soonest(x), k)
  {
    var c, d := CourseOf(s, Soonest(x)), CourseOf(s, x);
    SoonestIsQuickest(s, x);
    LineIsSaidIff(s, x, k);
    LineIsSaidIff(s, Soonest(x), k);
    forall j: nat | j <= k ensures Pace.Startable(c, j) {
      assert Pace.Startable(d, j);
      Pace.SlowerStarts(c, d, j);
    }
  }

  /** However the frames come, a line that can be said can be said at one of those two ends. */
  lemma SaidHoweverIff(s: Script, th: Thresholds, startTime: real, k: nat)
    requires Good(s) && Sane(th, FRAME_SECONDS) && Demanding(s) && k < |s.lines|
    ensures (exists early, after :: after >= 0.0 && CanBeSaid(s, Setup(th, startTime, early, after), k))
       <==> CanBeSaid(s, Setup(th, startTime, true, 0.0), k) || CanBeSaid(s, FrameFirst(th, startTime), k)
  {
    forall early, after | after >= 0.0 && CanBeSaid(s, Setup(th, startTime, early, after), k)
      ensures CanBeSaid(s, Soonest(Setup(th, startTime, early, after)), k)
    {
      SaidSoonest(s, Setup(th, startTime, early, after), k);
    }
  }

  /** Each frame observed and then the tick taken, both at the same time. */
  function FramesFirst(startTime: real, levels: seq<real>): seq<Moment> {
    if levels == [] then []
    else
      var n := |levels| - 1;
      FramesFirst(startTime, levels[..n]) + [Hears(levels[n]), Ticks(TickTime(startTime, n))]
  }

  /** Those are the moments of `FrameFirst` but for the frame after the last tick. */
  lemma {:induction false} FramesFirstAreMoments(th: Thresholds, startTime: real, levels: seq<real>, next: real)
    requires levels != []
    ensures FramesFirst(startTime, levels) + [Hears(next)] == Moments(FrameFirst(th, startTime), levels[0], levels[1..] + [next])
  {
    var n, x := |levels| - 1, FrameFirst(th, startTime);
    var all := levels[1..] + [next];
    assert all[..n] == levels[1..];
    assert FramesFirst(startTime, levels)
        == FramesFirst(startTime, levels[..n]) + [Hears(levels[n])] + [Ticks(TickTime(startTime, n))];
    if n == 0 {
      assert FramesFirst(startTime, levels[..n]) + [Hears(levels[n])] == Moments(x, levels[0], all[..n]);
    } else {
      FramesFirstAreMoments(th, startTime, levels[..n], levels[n]);
      assert levels[..n][1..] + [levels[n]] == levels[1..];
    }
  }

  /** The call in which each frame is observed before the tick of its own time is one of those above. */
  lemma FramesFirstIsPaced(s: Script, th: Thresholds, startTime: real, levels: seq<real>, next: real)
    requires Good(s) && levels != []
    ensures Called(s, Ear(th, startTime, FRAME_SECONDS), startTime, FramesFirst(startTime, levels)).plan
         == Paced(s, FrameFirst(th, startTime), levels[0], levels[1..] + [next]).plan
  {
    FramesFirstAreMoments(th, startTime, levels, next);
    assert Length(FRAME_SECONDS, 1) == FRAME_SECONDS;
    CalledHears(s, Ear(th, startTime, FRAME_SECONDS), startTime, FramesFirst(startTime, levels), next);
  }

  /** The longest call is within the budget, and is all of it when every wait can be answered. */
  lemma {:induction false} LongestAgainstBudget(s: Script, x: Setup, k: nat)
    requires Good(s) && Fine(x) && Demanding(s) && k <= |s.lines|
    ensures Pace.Proper(CourseOf(s, x)) && Pace.Longest(CourseOf(s, x), k) <= Budget(s, k)
    ensures (forall j :: k <= j < |s.lines| ==> Pace.Startable(CourseOf(s, x), j)) ==>
              Pace.Longest(CourseOf(s, x), k) == Budget(s, k)
    decreases |s.lines| - k
  {
    CourseIsProper(s, x);
    if k < |s.lines| {
      LineHasFrames(s, s.lines[k]);
      LongestAgainstBudget(s, x, k + 1);
    }
  }

  /** Two lines of two frames; timeouts of five and a half and three and a half ticks. */
  function OffGrid(): Script {
    var frame := Repeat(0, FRAME_BYTES);
    var line := LineAudio("hello", Greeting, [frame + frame], [0]);
    Script([line, line.(waitFor := Reply)], CallTiming(0.11, 0.07, 0.04, 0.06), frame)
  }

  const LEVELS := Thresholds(2.0, 1.0, 3, 0.06)

  lemma OffGridLine(k: nat)
    requires k < 2
    ensures Good(OffGrid()) && |LineFrames(OffGrid(), OffGrid().lines[k], 0)| == 2
    ensures LineSeconds(OffGrid().lines[k], 0) == 0.04
  {
    var s := OffGrid();
    var line := s.lines[k];
    assert Playable(line);
    assert |LineFrames(s, line, 0)| == 2;
    assert LineSeconds(line, 1) == 0.0;
  }

  lemma OffGridWaits()
    ensures Timeout(OffGrid(), 0) == 0.11 && WaitTicks(0.11) == 6
    ensures Timeout(OffGrid(), 1) == 0.07 && WaitTicks(0.07) == 4
  {
    assert 5.0 < (0.11 - TOLERANCE) / FRAME_SECONDS < 6.0;
    assert 3.0 < (0.07 - TOLERANCE) / FRAME_SECONDS < 4.0;
  }

  lemma OffGridCourses(startTime: real)
    ensures Good(OffGrid())
    ensures CourseOf(OffGrid(), TickFirst(LEVELS, startTime)) == Pace.Course([6, 4], [2, 2], 3, 2, 3, 3, 1, 0)
    ensures CourseOf(OffGrid(), FrameFirst(LEVELS, startTime)) == Pace.Course([6, 4], [2, 2], 3, 3, 3, 3, 0, 1)
  {
    OffGridLine(0);
    OffGridLine(1);
    OffGridWaits();
    WholeTimeout(2);
    WholeTimeout(3);
  }

  lemma OffGridTotal()
    ensures TotalSeconds(OffGrid(), 0) == 0.26
  {
    OffGridLine(0);
    OffGridLine(1);
    OffGridWaits();
    assert TotalSeconds(OffGrid(), 2) == 0.0 && TotalSeconds(OffGrid(), 1) == 0.11;
  }

  lemma OffGridPace(c: Pace.Course, d: Pace.Course)
    requires c == Pace.Course([6, 4], [2, 2], 3, 3, 3, 3, 0, 1) && d == Pace.Course([6, 4], [2, 2], 3, 2, 3, 3, 1, 0)
    ensures Pace.Proper(c) && Pace.Proper(d) && Pace.Longest(c, 0) == 14 && Pace.Longest(d, 0) == 13
    ensures Pace.Startable(c, 0) && Pace.Startable(c, 1) && !Pace.Startable(d, 1)
  {
    assert Pace.Longest(c, 2) == 0 && Pace.Longest(c, 1) == 6 && Pace.Longest(d, 1) == 5;
  }

  /**
   Timeouts between ticks can add up, and the order of frame and tick decides: with each frame observed before its
   tick some bot has the second line said, and this script is still talking when its waits and lines have gone by;
   with each tick first no bot has it said, and the script is in time.
   */
  lemma OffGridOverruns(startTime: real)
    ensures Good(OffGrid()) && Demanding(OffGrid())
    ensures !AlwaysInTime(OffGrid(), FrameFirst(LEVELS, startTime)) && CanBeSaid(OffGrid(), FrameFirst(LEVELS, startTime), 1)
    ensures AlwaysInTime(OffGrid(), TickFirst(LEVELS, startTime)) && !CanBeSaid(OffGrid(), TickFirst(LEVELS, startTime), 1)
  {
    var s, x, y := OffGrid(), FrameFirst(LEVELS, startTime), TickFirst(LEVELS, startTime);
    OffGridCourses(startTime);
    OffGridTotal();
    OffGridPace(CourseOf(s, x), CourseOf(s, y));
    AlwaysInTimeIff(s, x);
    AlwaysInTimeIff(s, y);
    LineIsSaidIff(s, x, 1);
    LineIsSaidIff(s, y, 1);
  }
}

/**
 The scripted caller and its detector in whole ticks, one of the bot's frames between any two: when a wait can be
 answered, and how long a call can last.
 */
module Pace {
  import opened Sequences

  /**
   The waits and the lines in ticks; the speech and the quiet a line needs; what closes and what opens a span. The
   frame of a line's last tick is heard after the line has marked the detector: `lost` is one when that frame does
   not count, and `early` is one when a frame is heard before the first tick.
   */
  datatype Course = Course(waits: seq<nat>, lengths: seq<nat>, need: nat, quiet: nat, close: nat, opening: nat,
                           lost: nat, early: nat)

  predicate Proper(c: Course) {
    && |c.waits| == |c.lengths| && (forall k :: 0 <= k < |c.lengths| ==> c.lengths[k] > 0)
    && c.need > 0 && c.quiet > 0 && c.close > 0 && c.opening > 0 && c.lost <= 1 && c.early <= 1
  }

  /** One of the bot's frames, by its level. */
  datatype Sound = Loud | Between | Below

  /** The detector: whether a span is open, when speech last ended, a pending run, and what counts since the mark. */
  datatype Bot = Bot(open: bool, ever: bool, end: nat, candidate: nat, heard: nat, pending: nat)

  const SILENT_BOT := Bot(false, false, 0, 0, 0, 0)

  /** The frame heard after tick `n`, the early one being that of tick -1. */
  function Hear(c: Course, b: Bot, n: int, sound: Sound, counts: bool): Bot
    requires n >= -1
  {
    var one := if counts && sound == Loud then 1 else 0;
    if b.open then
      if sound != Below then b.(end := n + 1, heard := b.heard + one)
      else if n + 1 >= b.end + c.close then b.(open := false)
      else b
    else if sound != Loud then b.(candidate := 0, pending := 0)
    else if b.candidate + 1 >= c.opening
    then Bot(true, true, n + 1, 0, b.heard + b.pending + one, 0)
    else b.(candidate := b.candidate + 1, pending := b.pending + one)
  }

  predicate Ready(c: Course, b: Bot, n: nat) {
    b.heard >= c.need && (b.ever ==> n >= b.end + c.quiet)
  }

  /** The planner: waiting for line `k` since tick `since`, with so many frames of it left, or through after `k` lines. */
  datatype Stand = Wait(k: nat, since: nat) | Talk(k: nat, left: nat) | Over(k: nat)

  /** Lines begun. */
  function Opened(t: Stand): nat {
    if t.Talk? then t.k + 1 else t.k
  }

  predicate Placed(c: Course, t: Stand) {
    t.Over? || (t.k < |c.lengths| && |c.waits| == |c.lengths| && (t.Talk? ==> t.left > 0))
  }

  /** Line `k` has sent a frame, and `left` with it. */
  function Sends(c: Course, k: nat, left: nat, n: nat): Stand {
    if left > 1 then Talk(k, left - 1) else if k + 1 < |c.lengths| then Wait(k + 1, n + 1) else Over(k + 1)
  }

  /** Tick `n`. */
  function Moves(c: Course, t: Stand, n: nat, ready: bool): Stand
    requires Placed(c, t)
  {
    match t
    case Wait(k, since) =>
      if ready then Sends(c, k, c.lengths[k], n) else if n >= since + c.waits[k] then Over(k) else t
    case Talk(k, left) => Sends(c, k, left, n)
    case Over(_) => t
  }

  /** The tick sends the last frame of a line, and marks the detector. */
  predicate Ends(c: Course, t: Stand, ready: bool)
    requires Placed(c, t)
  {
    match t
    case Wait(k, _) => ready && c.lengths[k] <= 1
    case Talk(_, left) => left <= 1
    case Over(_) => false
  }

  datatype Call = Call(stand: Stand, bot: Bot)

  function Step(c: Course, p: Call, n: nat, sound: Sound): Call
    requires Placed(c, p.stand)
  {
    var ready := Ready(c, p.bot, n);
    var ends := Ends(c, p.stand, ready);
    Call(Moves(c, p.stand, n, ready), Hear(c, if ends then p.bot.(heard := 0) else p.bot, n, sound, !ends || c.lost == 0))
  }

  lemma StepPlaced(c: Course, p: Call, n: nat, sound: Sound)
    requires Proper(c) && Placed(c, p.stand)
    ensures Placed(c, Step(c, p, n, sound).stand)
  {
  }

  function Begun(c: Course, first: Sound): Call {
    Call(if c.lengths == [] then Over(0) else Wait(0, 0),
         if c.early == 0 then SILENT_BOT else Hear(c, SILENT_BOT, -1, first, c.lost == 0))
  }

  /** A call with these frames after its ticks, and `first` before them if a frame is early. */
  function Run(c: Course, first: Sound, sounds: seq<Sound>): (p: Call)
    requires Proper(c)
    ensures Placed(c, p.stand)
  {
    if sounds == [] then Begun(c, first)
    else
      var n := |sounds| - 1;
      var p := Run(c, first, sounds[..n]);
      StepPlaced(c, p, n, sounds[n]);
      Step(c, p, n, sounds[n])
  }

  // What a wait can bring.

  /** The frames a new span can have before wait `k` begins: all since the span the line before it answers closed. */
  function Room(c: Course, k: nat): int
    requires k < |c.lengths|
  {
    if k == 0 then c.early else c.lengths[k - 1] + c.quiet - c.close
  }

  /** The fewest frames of a wait in which a new span opens and says enough, with room for this many before it. */
  function Anew(c: Course, room: int): int {
    if room >= c.opening then Max(0, c.need - (c.opening - c.lost))
    else Max(c.opening - Max(0, room), c.need - Max(0, room - c.lost))
  }

  /** The fewest in which a span kept open all through the line says enough. */
  function Kept(c: Course): int {
    c.need - 1 + c.lost
  }

  /** The span a line answers can be kept open until the line begins. */
  predicate StaysOpen(c: Course, k: nat) {
    k > 0 && c.close > c.quiet
  }

  /** The fewest frames of speech that answer wait `k`. */
  function Answer(c: Course, k: nat): int
    requires k < |c.lengths|
  {
    var anew := Anew(c, Room(c, k));
    if StaysOpen(c, k) && Kept(c) < anew then Kept(c) else anew
  }

  /** The wait is long enough for that and for the quiet after it. */
  predicate Startable(c: Course, k: nat)
    requires k < |c.lengths| && |c.waits| == |c.lengths|
  {
    c.waits[k] >= Answer(c, k) + c.quiet
  }

  /** What holds of the detector before any tick `n`. */
  predicate Fits(c: Course, b: Bot, n: nat) {
    && b.end <= n && b.pending <= b.candidate <= n + c.early && b.candidate < c.opening
    && (b.open ==> b.ever && b.candidate == 0 && n < b.end + c.close)
    && (!b.open && b.ever ==> b.end + c.close + b.candidate <= n)
    && (b.heard > 0 ==> b.ever)
  }

  lemma HearFits(c: Course, b: Bot, n: nat, sound: Sound, counts: bool)
    requires Proper(c) && Fits(c, b, n)
    ensures Fits(c, Hear(c, b, n, sound, counts), n + 1)
  {
  }

  /** How the detector stands when a wait begins. */
  datatype Outset = Outset(open: bool, candidate: nat, pending: nat, heard: nat)

  /** The outsets wait `k` can have. */
  predicate Possible(c: Course, k: nat, o: Outset)
    requires k < |c.lengths|
  {
    var room := Room(c, k);
    if o.open then
      && o.candidate == o.pending == 0
      && ((room >= c.opening && o.heard <= c.opening - c.lost) || (StaysOpen(c, k) && o.heard <= 1 - c.lost))
    else o.heard == 0 && o.pending <= Max(0, o.candidate - c.lost) && o.candidate < c.opening && o.candidate <= room
  }

  /** From a possible outset, `x` frames that answer the wait are at least as many as `Answer` says. */
  lemma AnswerIsLeast(c: Course, k: nat, o: Outset, x: nat)
    requires Proper(c) && k < |c.lengths| && Possible(c, k, o)
    requires x + o.pending + o.heard >= c.need && (!o.open ==> x + o.candidate >= c.opening)
    ensures x >= Answer(c, k)
  {
  }

  /** The detector on tick `n` of a wait that began on tick `w` with this outset, and has not been answered. */
  predicate Since(c: Course, b: Bot, n: nat, w: nat, o: Outset)
    requires w <= n
  {
    && b.heard + b.pending <= n - w + o.pending + o.heard
    && (b.heard > 0 ==> w <= b.end && b.heard <= b.end - w + o.pending + o.heard)
    && (!o.open ==> b.candidate <= n - w + o.candidate)
    && (!o.open && (b.open || b.heard > 0) ==> w <= b.end && b.end - w + o.candidate >= c.opening)
    && (b.heard >= c.need ==> n <= b.end + c.quiet)
  }

  lemma HearSince(c: Course, b: Bot, n: nat, sound: Sound, w: nat, o: Outset)
    requires Proper(c) && Fits(c, b, n) && w <= n && Since(c, b, n, w, o) && !Ready(c, b, n)
    ensures Since(c, Hear(c, b, n, sound, true), n + 1, w, o)
  {
  }

  /** The detector after a line began on tick `e + quiet`, the span it answers having ended on tick `e`. */
  predicate Answering(c: Course, b: Bot, n: nat, e: int) {
    b.ever && b.end >= e && (b.open ==> c.close > c.quiet || e + c.close + c.opening <= n)
  }

  lemma HearAnswering(c: Course, b: Bot, n: nat, sound: Sound, counts: bool, e: int)
    requires Proper(c) && Fits(c, b, n) && Answering(c, b, n, e)
    ensures Answering(c, Hear(c, b, n, sound, counts), n + 1, e)
  {
  }

  function OutsetOf(b: Bot): Outset {
    Outset(b.open, b.candidate, b.pending, b.heard)
  }

  /** The frame of a line's last tick leaves an outset that is possible, and a wait just begun. */
  lemma NextOutset(c: Course, b: Bot, n: nat, sound: Sound, k: nat)
    requires Proper(c) && Fits(c, b, n) && k + 1 < |c.lengths|
    requires Answering(c, b, n, n + 1 - c.lengths[k] - c.quiet)
    ensures var after := Hear(c, b.(heard := 0), n, sound, c.lost == 0);
      Possible(c, k + 1, OutsetOf(after)) && Since(c, after, n + 1, n + 1, OutsetOf(after))
  {
  }

  /** The tick on which the span line `k` answers ended, with `left` of its frames left on tick `n`. */
  function AnsweredFrom(c: Course, k: nat, left: nat, n: nat): int
    requires k < |c.lengths|
  {
    n + left - c.lengths[k] - c.quiet
  }

  ghost predicate Inv(c: Course, p: Call, n: nat) {
    && Placed(c, p.stand) && Fits(c, p.bot, n)
    && match p.stand
       case Wait(k, w) => w <= n <= w + c.waits[k] && exists o :: Possible(c, k, o) && Since(c, p.bot, n, w, o)
       case Talk(k, left) => Answering(c, p.bot, n, AnsweredFrom(c, k, left, n))
       case Over(_) => true
  }

  /** A wait that is answered was long enough, and the span that answers it ended exactly the quiet time ago. */
  lemma Answered(c: Course, b: Bot, n: nat, k: nat, w: nat, o: Outset)
    requires Proper(c) && k < |c.lengths| && Possible(c, k, o) && Fits(c, b, n) && w <= n && Since(c, b, n, w, o) && Ready(c, b, n)
    ensures b.end == n - c.quiet && n - w >= Answer(c, k) + c.quiet
    ensures Answering(c, b, n, n - c.quiet)
  {
    AnswerIsLeast(c, k, o, b.end - w);
  }

  lemma SendsKeepsInv(c: Course, b: Bot, k: nat, left: nat, n: nat, sound: Sound)
    requires Proper(c) && k < |c.lengths| && left > 0 && Fits(c, b, n)
    requires Answering(c, b, n, AnsweredFrom(c, k, left, n))
    ensures Inv(c, Call(Sends(c, k, left, n), Hear(c, if left <= 1 then b.(heard := 0) else b, n, sound, left > 1 || c.lost == 0)), n + 1)
  {
    var after := Hear(c, if left <= 1 then b.(heard := 0) else b, n, sound, left > 1 || c.lost == 0);
    HearFits(c, if left <= 1 then b.(heard := 0) else b, n, sound, left > 1 || c.lost == 0);
    if left > 1 {
      HearAnswering(c, b, n, sound, true, AnsweredFrom(c, k, left, n));
    } else if k + 1 < |c.lengths| {
      NextOutset(c, b, n, sound, k);
    }
  }

  lemma StepKeepsInv(c: Course, p: Call, n: nat, sound: Sound)
    requires Proper(c) && Inv(c, p, n)
    ensures Inv(c, Step(c, p, n, sound), n + 1)
  {
    match p.stand
    case Wait(k, w) =>
      var o :| Possible(c, k, o) && Since(c, p.bot, n, w, o);
      if Ready(c, p.bot, n) {
        Answered(c, p.bot, n, k, w, o);
        SendsKeepsInv(c, p.bot, k, c.lengths[k], n, sound);
      } else {
        HearFits(c, p.bot, n, sound, true);
        HearSince(c, p.bot, n, sound, w, o);
      }
    case Talk(k, left) => SendsKeepsInv(c, p.bot, k, left, n, sound);
    case Over(_) => HearFits(c, p.bot, n, sound, true);
  }

  lemma {:induction false} RunKeepsInv(c: Course, first: Sound, sounds: seq<Sound>)
    requires Proper(c)
    ensures Inv(c, Run(c, first, sounds), |sounds|)
  {
    if sounds == [] {
      if c.lengths != [] {
        var b := Begun(c, first).bot;
        assert Possible(c, 0, OutsetOf(b)) && Since(c, b, 0, 0, OutsetOf(b));
      }
    } else {
      var n := |sounds| - 1;
      RunKeepsInv(c, first, sounds[..n]);
      StepKeepsInv(c, Run(c, first, sounds[..n]), n, sounds[n]);
    }
  }

  // How long a call can last.

  /** Ticks from the beginning of wait `k`, at most: a wait too short to be answered is the last. */
  function Longest(c: Course, k: nat): nat
    requires Proper(c) && k <= |c.lengths|
    decreases |c.lengths| - k
  {
    if k == |c.lengths| then 0
    else if !Startable(c, k) then c.waits[k] + 1
    else c.waits[k] + c.lengths[k] + Longest(c, k + 1)
  }

  /** Ticks left, at most, on tick `n`. */
  function Left(c: Course, t: Stand, n: nat): int
    requires Proper(c) && Placed(c, t)
  {
    match t
    case Wait(k, w) => Longest(c, k) - (n - w)
    case Talk(k, left) => left + Longest(c, k + 1)
    case Over(_) => 0
  }

  /** Every tick of a call that is not over brings its end nearer. */
  lemma StepShortens(c: Course, p: Call, n: nat, sound: Sound)
    requires Proper(c) && Inv(c, p, n) && !p.stand.Over?
    ensures Left(c, Step(c, p, n, sound).stand, n + 1) < Left(c, p.stand, n)
    ensures Left(c, p.stand, n) > 0
  {
    if p.stand.Wait? {
      var k, w := p.stand.k, p.stand.since;
      var o :| Possible(c, k, o) && Since(c, p.bot, n, w, o);
      if Ready(c, p.bot, n) {
        Answered(c, p.bot, n, k, w, o);
      }
    }
  }

  /** Whatever the bot does, a call is over after its longest. */
  lemma {:induction false} OverByTheLongest(c: Course, first: Sound, sounds: seq<Sound>)
    requires Proper(c)
    ensures var p := Run(c, first, sounds); p.stand.Over? || (|sounds| + Left(c, p.stand, |sounds|) <= Longest(c, 0) && |sounds| < Longest(c, 0))
  {
    RunKeepsInv(c, first, sounds);
    if sounds != [] {
      var n := |sounds| - 1;
      OverByTheLongest(c, first, sounds[..n]);
      RunKeepsInv(c, first, sounds[..n]);
      if !Run(c, first, sounds[..n]).stand.Over? {
        StepShortens(c, Run(c, first, sounds[..n]), n, sounds[n]);
      }
    }
    if !Run(c, first, sounds).stand.Over? {
      StepShortens(c, Run(c, first, sounds), |sounds|, Below);
    }
  }

  // A bot that makes a call last that long.

  /** Whether answering wait `k` from a span kept open all through the line takes fewer frames than a new one. */
  predicate KeepsTalking(c: Course, k: nat)
    requires k < |c.lengths|
  {
    Room(c, k) < c.opening && StaysOpen(c, k) && Kept(c) <= Anew(c, Room(c, k))
  }

  /** The outset from which the fewest frames answer wait `k`. */
  function Best(c: Course, k: nat): Outset
    requires Proper(c) && k < |c.lengths|
  {
    var room := Room(c, k);
    if room >= c.opening then Outset(true, 0, 0, c.opening - c.lost)
    else if KeepsTalking(c, k) then Outset(true, 0, 0, 1 - c.lost)
    else Outset(false, Max(0, room), Max(0, room - c.lost), 0)
  }

  lemma BestAnswers(c: Course, k: nat, x: nat)
    requires Proper(c) && k < |c.lengths| && x >= Answer(c, k)
    ensures Best(c, k).open || Best(c, k).candidate + x >= c.opening
    ensures Best(c, k).heard + Best(c, k).pending + x >= c.need
  {
  }

  /** How long the bot is below the quiet level once it has answered wait `k`: until it answers the next, if there is one. */
  function Gap(c: Course, k: nat): int
    requires Proper(c) && k < |c.lengths|
  {
    if k + 1 == |c.lengths| then c.lengths[k] + c.quiet
    else if Room(c, k + 1) >= c.opening then c.lengths[k] + c.quiet - c.opening
    else if KeepsTalking(c, k + 1) then c.quiet
    else c.close
  }

  /** After that answer the same span goes on. */
  predicate TalksOn(c: Course, k: nat)
    requires k < |c.lengths|
  {
    k + 1 < |c.lengths| && KeepsTalking(c, k + 1)
  }

  /** The tick on which the bot stops, so that the quiet time is up on the wait's last tick. */
  function Stops(c: Course, k: nat, w: nat): int
    requires k < |c.waits|
  {
    w + c.waits[k] - c.quiet
  }

  function Play(c: Course, k: nat, w: nat, n: nat): Sound
    requires Proper(c) && k < |c.lengths|
  {
    if Stops(c, k, w) <= n < Stops(c, k, w) + Gap(c, k) then Below else Loud
  }

  /** Speaking, from the best outset, without a pause. */
  predicate Speaking(c: Course, k: nat, w: nat, b: Bot, n: nat)
    requires Proper(c) && k < |c.lengths| && w <= n
  {
    var o := Best(c, k);
    if o.open || o.candidate + (n - w) >= c.opening
    then b.open && b.end == n && b.heard == o.heard + o.pending + (n - w)
    else !b.open && b.heard == 0 && b.candidate == o.candidate + (n - w) && b.pending == o.pending + (n - w)
  }

  /** After the answer: quiet for the gap, and then a run of speech, or the same span again. */
  predicate Pausing(c: Course, k: nat, e: int, b: Bot, n: nat)
    requires Proper(c) && k < |c.lengths| && e <= n
  {
    var m := n - e - Gap(c, k);
    && b.ever && b.heard >= c.need
    && (m <= 0 ==> b.end == e && (b.open <==> n - e < c.close) && b.candidate == 0)
    && (m > 0 && TalksOn(c, k) ==> b.open && b.end == n)
    && (m > 0 && !TalksOn(c, k) ==> !b.open && b.end == e && b.candidate == b.pending == m)
  }

  /** A call on tick `n` of wait `k` or of its line, with the bot playing its part. */
  predicate Driven(c: Course, k: nat, w: nat, p: Call, n: nat)
    requires Proper(c) && k < |c.lengths|
  {
    var e, start := Stops(c, k, w), w + c.waits[k];
    && w <= n < start + c.lengths[k]
    && p.stand == (if n <= start then Wait(k, w) else Talk(k, c.lengths[k] - (n - start)))
    && (n <= e ==> Speaking(c, k, w, p.bot, n))
    && (n >= e ==> Pausing(c, k, e, p.bot, n))
  }

  /** Wait `k` begins on tick `n`, from the best outset. */
  predicate Begins(c: Course, k: nat, p: Call, n: nat)
    requires Proper(c) && k < |c.lengths|
  {
    p.stand == Wait(k, n) && Speaking(c, k, n, p.bot, n)
  }

  lemma SpeakingTick(c: Course, k: nat, w: nat, b: Bot, n: nat)
    requires Proper(c) && k < |c.lengths| && w <= n && Fits(c, b, n) && Speaking(c, k, w, b, n)
    ensures !Ready(c, b, n) && Speaking(c, k, w, Hear(c, b, n, Loud, true), n + 1)
  {
  }

  lemma PausingTick(c: Course, k: nat, e: int, b: Bot, n: nat)
    requires Proper(c) && k < |c.lengths| && e <= n && Fits(c, b, n) && Pausing(c, k, e, b, n)
    requires n + 1 < e + c.quiet + c.lengths[k]
    ensures Pausing(c, k, e, Hear(c, b, n, if n < e + Gap(c, k) then Below else Loud, true), n + 1)
  {
  }

  /** Speech that goes on until the bot stops is the answer the pause begins with. */
  lemma StopsSpeaking(c: Course, k: nat, w: nat, b: Bot, n: nat)
    requires Proper(c) && k < |c.lengths| && Startable(c, k) && w <= n == Stops(c, k, w)
    requires Fits(c, b, n) && Speaking(c, k, w, b, n)
    ensures Pausing(c, k, n, b, n)
  {
    BestAnswers(c, k, n - w);
  }

  /** The bot has stopped: not ready before the wait's last tick, and ready on it. */
  lemma ReadyOnTime(c: Course, k: nat, w: nat, b: Bot, n: nat)
    requires Proper(c) && k < |c.lengths| && Startable(c, k)
    requires Stops(c, k, w) <= n <= w + c.waits[k] && Fits(c, b, n) && Pausing(c, k, Stops(c, k, w), b, n)
    ensures Ready(c, b, n) <==> n == w + c.waits[k]
  {
  }

  lemma DrivenTick(c: Course, k: nat, w: nat, p: Call, n: nat)
    requires Proper(c) && k < |c.lengths| && Startable(c, k)
    requires Driven(c, k, w, p, n) && Fits(c, p.bot, n) && Placed(c, p.stand) && n + 1 < w + c.waits[k] + c.lengths[k]
    ensures Driven(c, k, w, Step(c, p, n, Play(c, k, w, n)), n + 1)
  {
    var e := Stops(c, k, w);
    if n < e {
      SpeakingTick(c, k, w, p.bot, n);
      var after := Hear(c, p.bot, n, Loud, true);
      HearFits(c, p.bot, n, Loud, true);
      assert Step(c, p, n, Loud) == Call(p.stand, after);
      if n + 1 == e {
        StopsSpeaking(c, k, w, after, n + 1);
      }
    } else {
      PausingTick(c, k, e, p.bot, n);
      if n <= w + c.waits[k] {
        ReadyOnTime(c, k, w, p.bot, n);
      }
    }
  }

  /** The frame of the line's last tick, whether it counts or not, leaves the best outset. */
  lemma LastFrame(c: Course, k: nat, next: nat, e: int, b: Bot, n: nat)
    requires Proper(c) && k + 1 == next < |c.lengths| && e <= n && Fits(c, b, n) && Pausing(c, k, e, b, n)
    requires n + 1 == e + c.quiet + c.lengths[k]
    ensures Speaking(c, next, n + 1, Hear(c, b.(heard := 0), n, if n < e + Gap(c, k) then Below else Loud, c.lost == 0), n + 1)
  {
  }

  lemma DrivenToTheEnd(c: Course, k: nat, next: nat, w: nat, p: Call, n: nat)
    requires Proper(c) && k + 1 == next < |c.lengths| && Startable(c, k)
    requires Driven(c, k, w, p, n) && Fits(c, p.bot, n) && Placed(c, p.stand) && n + 1 == w + c.waits[k] + c.lengths[k]
    ensures Begins(c, next, Step(c, p, n, Play(c, k, w, n)), n + 1)
  {
    if n <= w + c.waits[k] {
      ReadyOnTime(c, k, w, p.bot, n);
    }
    LastFrame(c, k, next, Stops(c, k, w), p.bot, n);
  }

  lemma BeginsDriven(c: Course, k: nat, p: Call, w: nat)
    requires Proper(c) && k < |c.lengths| && Startable(c, k)
    requires Begins(c, k, p, w) && Fits(c, p.bot, w)
    ensures Driven(c, k, w, p, w)
  {
    if Stops(c, k, w) == w {
      StopsSpeaking(c, k, w, p.bot, w);
    }
  }

  /** A bot that is loud or below the quiet level, and never between: any two levels will do. */
  predicate Plain(sounds: seq<Sound>) {
    forall i :: 0 <= i < |sounds| ==> sounds[i] != Between
  }

  lemma RunSnoc(c: Course, first: Sound, before: seq<Sound>, sound: Sound)
    requires Proper(c)
    ensures Run(c, first, before + [sound]) == Step(c, Run(c, first, before), |before|, sound)
  {
    assert (before + [sound])[..|before|] == before;
  }

  lemma DriveOn(c: Course, k: nat, w: nat, first: Sound, sounds: seq<Sound>) returns (more: seq<Sound>)
    requires Proper(c) && k < |c.lengths| && Startable(c, k) && Driven(c, k, w, Run(c, first, sounds), |sounds|)
    requires |sounds| + 1 < w + c.waits[k] + c.lengths[k] && Plain(sounds)
    ensures Plain(more) && |more| == |sounds| + 1 && Driven(c, k, w, Run(c, first, more), |more|)
  {
    var p, sound := Run(c, first, sounds), Play(c, k, w, |sounds|);
    RunKeepsInv(c, first, sounds);
    DrivenTick(c, k, w, p, |sounds|);
    RunSnoc(c, first, sounds, sound);
    more := sounds + [sound];
  }

  /** The bot plays its part of wait `k` and its line up to tick `n`. */
  lemma {:induction false} Drive(c: Course, k: nat, w: nat, first: Sound, before: seq<Sound>, n: nat) returns (sounds: seq<Sound>)
    requires Proper(c) && k < |c.lengths| && Startable(c, k)
    requires |before| == w && Begins(c, k, Run(c, first, before), w) && w <= n < w + c.waits[k] + c.lengths[k] && Plain(before)
    ensures Plain(sounds) && |sounds| == n && Driven(c, k, w, Run(c, first, sounds), n)
    decreases n - w
  {
    if n == w {
      sounds := before;
      RunKeepsInv(c, first, before);
      BeginsDriven(c, k, Run(c, first, before), w);
    } else {
      var fewer := Drive(c, k, w, first, before, n - 1);
      sounds := DriveOn(c, k, w, first, fewer);
    }
  }

  lemma TooShort(c: Course, k: nat, w: nat, p: Call, n: nat)
    requires Proper(c) && k < |c.lengths| && !Startable(c, k) && Inv(c, p, n) && p.stand == Wait(k, w)
    ensures !Ready(c, p.bot, n)
  {
    var o :| Possible(c, k, o) && Since(c, p.bot, n, w, o);
    if Ready(c, p.bot, n) {
      Answered(c, p.bot, n, k, w, o);
    }
  }

  lemma WaitOn(c: Course, k: nat, w: nat, first: Sound, sounds: seq<Sound>) returns (more: seq<Sound>)
    requires Proper(c) && k < |c.lengths| && !Startable(c, k)
    requires Run(c, first, sounds).stand == Wait(k, w) && w <= |sounds| < w + c.waits[k] && Plain(sounds)
    ensures Plain(more) && |more| == |sounds| + 1 && Run(c, first, more).stand == Wait(k, w)
  {
    RunKeepsInv(c, first, sounds);
    TooShort(c, k, w, Run(c, first, sounds), |sounds|);
    RunSnoc(c, first, sounds, Below);
    more := sounds + [Below];
  }

  /** A wait too short to be answered is waited out, whatever the bot does. */
  lemma {:induction false} WaitsOut(c: Course, k: nat, w: nat, first: Sound, before: seq<Sound>, n: nat) returns (sounds: seq<Sound>)
    requires Proper(c) && k < |c.lengths| && !Startable(c, k)
    requires |before| == w && Run(c, first, before).stand == Wait(k, w) && w <= n <= w + c.waits[k] && Plain(before)
    ensures Plain(sounds) && |sounds| == n && Run(c, first, sounds).stand == Wait(k, w)
    decreases n - w
  {
    if n == w {
      sounds := before;
    } else {
      var fewer := WaitsOut(c, k, w, first, before, n - 1);
      sounds := WaitOn(c, k, w, first, fewer);
    }
  }

  lemma BeginsAtOnce(c: Course, first: Sound, none: seq<Sound>)
    requires Proper(c) && c.lengths != [] && first == Loud && none == []
    ensures Begins(c, 0, Run(c, first, none), 0)
  {
  }

  /** The line's last tick, and the next wait. */
  lemma DriveOver(c: Course, k: nat, next: nat, w: nat, first: Sound, sounds: seq<Sound>)
    requires Proper(c) && k + 1 == next < |c.lengths| && Startable(c, k)
    requires Driven(c, k, w, Run(c, first, sounds), |sounds|) && |sounds| + 1 == w + c.waits[k] + c.lengths[k]
    ensures Begins(c, next, Run(c, first, sounds + [Play(c, k, w, |sounds|)]), |sounds| + 1)
  {
    var p, sound := Run(c, first, sounds), Play(c, k, w, |sounds|);
    RunKeepsInv(c, first, sounds);
    DrivenToTheEnd(c, k, next, w, p, |sounds|);
    RunSnoc(c, first, sounds, sound);
    assert Begins(c, next, Step(c, p, |sounds|, sound), |sounds| + 1);
  }

  /** And on to the next wait. */
  lemma NextWait(c: Course, k: nat, next: nat, first: Sound, before: seq<Sound>) returns (sounds: seq<Sound>)
    requires Proper(c) && k + 1 == next < |c.lengths| && Startable(c, k)
    requires Begins(c, k, Run(c, first, before), |before|) && Plain(before)
    ensures Plain(sounds) && |sounds| == |before| + c.waits[k] + c.lengths[k] && Begins(c, next, Run(c, first, sounds), |sounds|)
  {
    var w := |before|;
    var driven := Drive(c, k, w, first, before, w + c.waits[k] + c.lengths[k] - 1);
    DriveOver(c, k, next, w, first, driven);
    sounds := driven + [Play(c, k, w, |driven|)];
  }

  /** From the best outset, with a wait too short or a last line to come. */
  lemma LastTurn(c: Course, k: nat, first: Sound, before: seq<Sound>) returns (sounds: seq<Sound>)
    requires Proper(c) && k < |c.lengths| && Begins(c, k, Run(c, first, before), |before|) && Plain(before)
    requires !Startable(c, k) || k + 1 == |c.lengths|
    ensures Plain(sounds) && |sounds| == |before| + Longest(c, k) - 1 && !Run(c, first, sounds).stand.Over?
  {
    if !Startable(c, k) {
      sounds := WaitsOut(c, k, |before|, first, before, |before| + c.waits[k]);
    } else {
      sounds := Drive(c, k, |before|, first, before, |before| + c.waits[k] + c.lengths[k] - 1);
    }
  }

  /** From the best outset the call can be kept going to the last tick of its longest. */
  lemma {:induction false} KeptGoing(c: Course, k: nat, first: Sound, before: seq<Sound>) returns (sounds: seq<Sound>)
    requires Proper(c) && k < |c.lengths| && Begins(c, k, Run(c, first, before), |before|) && Plain(before)
    ensures Plain(sounds) && |sounds| == |before| + Longest(c, k) - 1 && !Run(c, first, sounds).stand.Over?
    decreases |c.lengths| - k
  {
    if !Startable(c, k) || k + 1 == |c.lengths| {
      sounds := LastTurn(c, k, first, before);
      return;
    }
    var next := k + 1;
    var after := NextWait(c, k, next, first, before);
    sounds := KeptGoing(c, next, first, after);
  }

  /** No smaller bound holds: some bot keeps every tick but the last of the longest call going. */
  lemma LongestIsReached(c: Course, first: Sound) returns (sounds: seq<Sound>)
    requires Proper(c) && c.lengths != [] && first == Loud
    ensures Plain(sounds) && |sounds| == Longest(c, 0) - 1 && !Run(c, first, sounds).stand.Over?
  {
    sounds := [];
    BeginsAtOnce(c, first, sounds);
    sounds := KeptGoing(c, 0, first, sounds);
  }

  /** The same call but for a longer quiet time before each line, or without the early frame. */
  predicate Slower(c: Course, d: Course) {
    d.quiet >= c.quiet && d.early <= c.early && d == c.(quiet := d.quiet, early := d.early)
  }

  /** What it saves a wait in speech it costs in quiet. */
  lemma SlowerAnswers(c: Course, d: Course, k: nat)
    requires Proper(c) && Proper(d) && Slower(c, d) && k < |c.lengths|
    ensures Answer(d, k) + d.quiet >= Answer(c, k) + c.quiet
  {
  }

  lemma SlowerStarts(c: Course, d: Course, k: nat)
    requires Proper(c) && Proper(d) && Slower(c, d) && k < |c.lengths| && Startable(d, k)
    ensures Startable(c, k)
  {
    SlowerAnswers(c, d, k);
  }

  lemma {:induction false} SlowerIsShorter(c: Course, d: Course, k: nat)
    requires Proper(c) && Proper(d) && Slower(c, d) && k <= |c.lengths|
    ensures Longest(d, k) <= Longest(c, k)
    decreases |c.lengths| - k
  {
    if k < |c.lengths| {
      SlowerAnswers(c, d, k);
      SlowerIsShorter(c, d, k + 1);
    }
  }

  // Which lines a bot can have said.

  ghost predicate AllStartable(c: Course, n: nat)
    requires Proper(c) && n <= |c.lengths|
  {
    forall j :: 0 <= j < n ==> Startable(c, j)
  }

  lemma StepOpens(c: Course, p: Call, n: nat, sound: Sound)
    requires Proper(c) && Inv(c, p, n) && Opened(p.stand) <= |c.lengths|
    ensures var q := Step(c, p, n, sound).stand;
      && Opened(p.stand) <= Opened(q) <= |c.lengths|
      && (Opened(q) > Opened(p.stand) ==> Opened(q) == Opened(p.stand) + 1 && Startable(c, Opened(p.stand)))
  {
    if p.stand.Wait? && Ready(c, p.bot, n) {
      var o :| Possible(c, p.stand.k, o) && Since(c, p.bot, n, p.stand.since, o);
      Answered(c, p.bot, n, p.stand.k, p.stand.since, o);
    }
  }

  lemma {:induction false} OnlyStartable(c: Course, first: Sound, sounds: seq<Sound>)
    requires Proper(c)
    ensures Opened(Run(c, first, sounds).stand) <= |c.lengths| && AllStartable(c, Opened(Run(c, first, sounds).stand))
  {
    if sounds != [] {
      var n := |sounds| - 1;
      OnlyStartable(c, first, sounds[..n]);
      RunKeepsInv(c, first, sounds[..n]);
      StepOpens(c, Run(c, first, sounds[..n]), n, sounds[n]);
    }
  }

  lemma FewerStartable(c: Course, n: nat)
    requires Proper(c) && 0 < n <= |c.lengths| && AllStartable(c, n)
    ensures Startable(c, n - 1) && AllStartable(c, n - 1)
  {
  }

  lemma {:induction false} Reached(c: Course, k: nat, first: Sound) returns (sounds: seq<Sound>)
    requires Proper(c) && k < |c.lengths| && AllStartable(c, k) && first == Loud
    ensures Plain(sounds) && Begins(c, k, Run(c, first, sounds), |sounds|)
  {
    if k == 0 {
      sounds := [];
      BeginsAtOnce(c, first, sounds);
    } else {
      FewerStartable(c, k);
      var before := Reached(c, k - 1, first);
      sounds := NextWait(c, k - 1, k, first, before);
    }
  }

  /** Line `k` is said to some bot exactly when its wait, and every one before it, can be answered. */
  lemma LineStartsIff(c: Course, k: nat)
    requires Proper(c) && k < |c.lengths|
    ensures (exists sounds :: Plain(sounds) && Opened(Run(c, Loud, sounds).stand) > k) <==> AllStartable(c, k + 1)
    ensures (exists first, sounds :: Opened(Run(c, first, sounds).stand) > k) <==> AllStartable(c, k + 1)
  {
    forall first, sounds | Opened(Run(c, first, sounds).stand) > k ensures AllStartable(c, k + 1) {
      OnlyStartable(c, first, sounds);
    }
    if AllStartable(c, k + 1) {
      var before := Reached(c, k, Loud);
      var w := |before|;
      var sounds := Drive(c, k, w, Loud, before, w + c.waits[k]);
      RunKeepsInv(c, Loud, sounds);
      ReadyOnTime(c, k, w, Run(c, Loud, sounds).bot, w + c.waits[k]);
      RunSnoc(c, Loud, sounds, Below);
      assert Plain(sounds + [Below]) && Opened(Run(c, Loud, sounds + [Below]).stand) > k;
    }
  }
}

/**
 The serializer's inbound half: every WebSocket message may mean several pipeline frames, but the
 transport takes one frame per message, so the rest waits in a queue.
 */
module Serializer {
  import opened Sequences

  datatype SpeechFrames = Unreported | Vad | User

  datatype Params = Params(speechFrames: SpeechFrames, autoInterrupt: bool, emitBotSpeakingFrames: bool)

  datatype Encoding = PCMU | PCMA | L16

  datatype MediaFormat = MediaFormat(encoding: Encoding, channels: int)

  datatype Frame =
    | InputAudio(pcm: seq<byte>)
    | VadUserStartedSpeaking
    | VadUserStoppedSpeaking
    | UserStartedSpeaking
    | UserStoppedSpeaking
    | InterruptionWorker
    | InputDtmf(digit: char)
    | BotStoppedSpeaking
    | EndWorker(reason: string)
    | CancelWorker(reason: string)
    | ErrorFrame(error: string)

  /** One message off the socket. `pcm` is what decoding and resampling `payload` would give. */
  datatype Message =
    | Audio(payload: seq<byte>, pcm: seq<byte>)
    | Malformed
    | Start(streamId: string, media: MediaFormat)
    | Renegotiate(media: MediaFormat)
    | SpeechStarted
    | SpeechStopped
    | Dtmf(digit: char)
    | Mark(name: string)
    | Stop(reason: string)
    | EngineError(text: string, fatal: bool)
    | EngineEvent(name: string)
    | ServerVerb

  const KEYPAD: set<char> := {'0', '1', '2', '3', '4', '5', '6', '7', '8', '9', '*', '#'}

  function AudioFrames(media: MediaFormat, payload: seq<byte>, pcm: seq<byte>): seq<Frame> {
    if payload == [] then []
    else if media.encoding == L16 && |payload| % 2 != 0 then []
    else if media.encoding == L16 && media.channels == 2 && |payload| % 4 != 0 then []
    else if media.encoding == L16 && media.channels != 1 && media.channels != 2 then []
    else if pcm == [] then []
    else [InputAudio(pcm)]
  }

  /** The frames one message means, under the wire format in force. */
  function FramesFor(params: Params, media: MediaFormat, message: Message): seq<Frame> {
    match message
    case Audio(payload, pcm) => AudioFrames(media, payload, pcm)
    case SpeechStarted =>
      (match params.speechFrames
       case Unreported => []
       case Vad => [VadUserStartedSpeaking]
       case User => [UserStartedSpeaking] + if params.autoInterrupt then [InterruptionWorker] else [])
    case SpeechStopped =>
      (match params.speechFrames
       case Unreported => []
       case Vad => [VadUserStoppedSpeaking]
       case User => [UserStoppedSpeaking])
    case Dtmf(digit) => if digit in KEYPAD then [InputDtmf(digit)] else []
    case Mark(_) => if params.emitBotSpeakingFrames then [BotStoppedSpeaking] else []
    case Stop(reason) => [EndWorker(reason)]
    case EngineError(text, fatal) => if fatal then [CancelWorker(text)] else [ErrorFrame(text)]
    case Malformed => []
    case Start(_, _) => []
    case Renegotiate(_) => []
    case EngineEvent(_) => []
    case ServerVerb => []
  }

  function MediaAfter(media: MediaFormat, message: Message): MediaFormat {
    match message
    case Start(_, announced) => announced
    case Renegotiate(announced) => announced
    case _ => media
  }

  /** The frames each message of a run means, message by message. */
  function Produced(params: Params, media: MediaFormat, messages: seq<Message>): (r: seq<seq<Frame>>)
    ensures |r| == |messages|
    decreases messages
  {
    if messages == [] then []
    else [FramesFor(params, media, messages[0])]
         + Produced(params, MediaAfter(media, messages[0]), messages[1..])
  }

  /** What is left waiting after messages meaning `produced`, with `pending` waiting before them. */
  function Waiting(pending: seq<Frame>, produced: seq<seq<Frame>>): seq<Frame>
    decreases produced
  {
    if produced == [] then pending
    else
      var queue := pending + produced[0];
      Waiting(if queue == [] then [] else queue[1..], produced[1..])
  }

  /** What the transport was handed, message by message: a frame, or nothing. */
  function Returned(pending: seq<Frame>, produced: seq<seq<Frame>>): (r: seq<Option<Frame>>)
    ensures |r| == |produced|
    decreases produced
  {
    if produced == [] then []
    else
      var queue := pending + produced[0];
      if queue == [] then [None] + Returned([], produced[1..])
      else [Some(queue[0])] + Returned(queue[1..], produced[1..])
  }

  /** The frames among a run's answers. */
  function Frames(returned: seq<Option<Frame>>): seq<Frame> {
    if returned == [] then []
    else (if returned[0].Some? then [returned[0].value] else []) + Frames(returned[1..])
  }

  class SiphonFrameSerializer {
    const params: Params
    var media: MediaFormat
    var streamId: Option<string>
    var pendingFrames: seq<Frame>

    constructor (params: Params, media: MediaFormat)
      ensures this.params == params && this.media == media
      ensures pendingFrames == [] && streamId == None
    {
      this.params := params;
      this.media := media;
      this.streamId := None;
      this.pendingFrames := [];
    }

    /** One call is one message of `Returned` and `Waiting`; the wire format moves with it. */
    method Deserialize(message: Message) returns (frame: Option<Frame>)
      modifies this
      ensures [frame] == Returned(old(pendingFrames), [FramesFor(params, old(media), message)])
      ensures pendingFrames == Waiting(old(pendingFrames), [FramesFor(params, old(media), message)])
      ensures media == MediaAfter(old(media), message)
      ensures streamId == if message.Start? then Some(message.streamId) else old(streamId)
    {
      var frames := FramesFor(params, media, message);
      if message.Start? {
        streamId, media := Some(message.streamId), message.media;
      } else if message.Renegotiate? {
        media := message.media;
      }
      pendingFrames := pendingFrames + frames;
      if pendingFrames == [] {
        frame := None;
      } else {
        frame := Some(pendingFrames[0]);
        pendingFrames := pendingFrames[1..];
      }
    }
  }

  /**
   Over any run nothing is lost, duplicated or reordered: what was handed out, followed by what still
   waits, is what was waiting followed by everything the messages meant.
   */
  lemma {:induction false} NothingLostOrReordered(pending: seq<Frame>, produced: seq<seq<Frame>>)
    ensures Frames(Returned(pending, produced)) + Waiting(pending, produced) == pending + Flatten(produced)
    decreases produced
  {
    if produced != [] {
      var queue := pending + produced[0];
      var rest := produced[1..];
      var left := if queue == [] then [] else queue[1..];
      NothingLostOrReordered(left, rest);
      var returned := Returned(pending, produced);
      assert returned[1..] == Returned(left, rest);
      assert queue + Flatten(rest) == pending + Flatten(produced);
      if queue != [] {
        assert [queue[0]] + left == queue;
        assert Frames(returned) + Waiting(pending, produced) == [queue[0]] + (Frames(returned[1..]) + Waiting(left, rest));
      }
    }
  }

  /** A message is answered with nothing exactly when nothing waits and it meant nothing. */
  lemma {:induction false} SilentOnlyWhenEmpty(pending: seq<Frame>, produced: seq<seq<Frame>>, i: nat)
    requires i < |produced|
    ensures Returned(pending, produced)[i] == None
       <==> Waiting(pending, produced[..i]) == [] && produced[i] == []
    decreases produced
  {
    var queue := pending + produced[0];
    if i == 0 {
      assert produced[..0] == [];
    } else {
      assert produced[..i][1..] == produced[1..][..i - 1];
      SilentOnlyWhenEmpty(if queue == [] then [] else queue[1..], produced[1..], i - 1);
    }
  }

  /** Frames meant by a run less one handed out per message: what a suffix adds to the backlog. */
  function Surplus(produced: seq<seq<Frame>>): int {
    if produced == [] then 0 else |produced[0]| - 1 + Surplus(produced[1..])
  }

  /** `weight` is the surplus of the heaviest suffix, the empty one included. */
  ghost predicate HeaviestSuffix(weight: int, produced: seq<seq<Frame>>) {
    && (forall k :: 0 <= k <= |produced| ==> Surplus(produced[k..]) <= weight)
    && (exists k :: 0 <= k <= |produced| && Surplus(produced[k..]) == weight)
  }

  /** The backlog is what was waiting plus the whole surplus, unless some suffix alone outweighs that. */
  lemma {:induction false} BacklogAsSurplus(pending: seq<Frame>, produced: seq<seq<Frame>>)
    ensures |Waiting(pending, produced)| >= |pending| + Surplus(produced)
    ensures forall k :: 0 <= k <= |produced| ==> Surplus(produced[k..]) <= |Waiting(pending, produced)|
    ensures |Waiting(pending, produced)| == |pending| + Surplus(produced)
         || exists k :: 0 <= k <= |produced| && Surplus(produced[k..]) == |Waiting(pending, produced)|
    decreases produced
  {
    var weight := |Waiting(pending, produced)|;
    assert produced[0..] == produced;
    if produced != [] {
      var queue := pending + produced[0];
      var left := if queue == [] then [] else queue[1..];
      BacklogAsSurplus(left, produced[1..]);
      forall k | 1 <= k <= |produced| ensures Surplus(produced[k..]) <= weight {
        assert produced[1..][k - 1..] == produced[k..];
      }
      if |left| + Surplus(produced[1..]) == weight {
        if queue == [] {
          assert Surplus(produced[1..]) == weight;
        }
      } else {
        var k :| 0 <= k < |produced| && Surplus(produced[1..][k..]) == weight;
        assert produced[1..][k..] == produced[k + 1..];
      }
    }
  }

  /** From an empty queue, the backlog is exactly the heaviest suffix of (frames meant - 1). */
  lemma BacklogIsHeaviestSuffix(produced: seq<seq<Frame>>)
    ensures HeaviestSuffix(|Waiting([], produced)|, produced)
  {
    BacklogAsSurplus([], produced);
    assert produced[0..] == produced;
    if |Waiting([], produced)| == Surplus(produced) {
      assert Surplus(produced[0..]) == |Waiting([], produced)|;
    }
  }

  function SpeechStarts(messages: seq<Message>): nat {
    if messages == [] then 0
    else (if messages[0].SpeechStarted? then 1 else 0) + SpeechStarts(messages[1..])
  }

  /** Frames can only pile up one per engine speech start, and only where barge-in is asked for. */
  lemma {:induction false} BacklogBound(params: Params, media: MediaFormat, pending: seq<Frame>, messages: seq<Message>)
    ensures |Waiting(pending, Produced(params, media, messages))|
         <= |pending| + if params.speechFrames == User && params.autoInterrupt then SpeechStarts(messages) else 0
    decreases messages
  {
    if messages != [] {
      var produced := Produced(params, media, messages);
      var queue := pending + produced[0];
      var left := if queue == [] then [] else queue[1..];
      BacklogBound(params, MediaAfter(media, messages[0]), left, messages[1..]);
      assert produced[1..] == Produced(params, MediaAfter(media, messages[0]), messages[1..]);
    }
  }

  /** Only a message that means nothing shortens the queue, so a stream of audio never drains it. */
  lemma {:induction false} FramesNeverDrainTheQueue(pending: seq<Frame>, produced: seq<seq<Frame>>)
    requires forall i :: 0 <= i < |produced| ==> produced[i] != []
    ensures |Waiting(pending, produced)| >= |pending|
    decreases produced
  {
    if produced != [] {
      var queue := pending + produced[0];
      assert queue != [];
      FramesNeverDrainTheQueue(queue[1..], produced[1..]);
    }
  }

  lemma {:induction false} WaitingAppend(pending: seq<Frame>, a: seq<seq<Frame>>, b: seq<seq<Frame>>)
    ensures Waiting(pending, a + b) == Waiting(Waiting(pending, a), b)
    decreases a
  {
    if a == [] {
      assert a + b == b;
    } else {
      var queue := pending + a[0];
      assert (a + b)[1..] == a[1..] + b;
      WaitingAppend(if queue == [] then [] else queue[1..], a[1..], b);
    }
  }

  /** A run of calls is one call after another, each starting from the queue the last one left. */
  lemma {:induction false} ReturnedAppend(pending: seq<Frame>, a: seq<seq<Frame>>, b: seq<seq<Frame>>)
    ensures Returned(pending, a + b) == Returned(pending, a) + Returned(Waiting(pending, a), b)
    decreases a
  {
    if a == [] {
      assert a + b == b;
    } else {
      var queue := pending + a[0];
      assert (a + b)[1..] == a[1..] + b;
      ReturnedAppend(if queue == [] then [] else queue[1..], a[1..], b);
    }
  }

  /**
   The frame that ends the pipeline, after a stop or a fatal error with which the engine closes the socket,
   is handed out at all exactly when nothing was waiting before it.
   */
  lemma LastFrameHandedOutIff(pending: seq<Frame>, produced: seq<seq<Frame>>, last: Frame)
    requires last !in pending && last !in Flatten(produced)
    ensures last in Frames(Returned(pending, produced + [[last]])) <==> Waiting(pending, produced) == []
  {
    var all := produced + [[last]];
    var before, after, handed := Waiting(pending, produced), Waiting(pending, all), Frames(Returned(pending, all));
    LastStep(before, last);
    WaitingAppend(pending, produced, [[last]]);
    NothingLostOrReordered(pending, produced);
    NothingLostOrReordered(pending, all);
    FlattenSnoc(produced, [last]);
    Associative(pending, Flatten(produced), [last]);
    HandedOrWaiting(pending + Flatten(produced), last, handed, after);
  }

  /** One message that means one frame hands out the head of the queue. */
  lemma LastStep(queue: seq<Frame>, last: Frame)
    ensures Waiting(queue, [[last]]) == (queue + [last])[1..]
  {
    assert [[last]][1..] == [];
  }

  /** Of frames told in order, the last one is handed out or among those that wait. */
  lemma HandedOrWaiting(told: seq<Frame>, last: Frame, handed: seq<Frame>, after: seq<Frame>)
    requires last !in told && handed + after == told + [last]
    ensures last in handed <==> after == []
  {
    var all := handed + after;
    if after == [] {
      assert handed == told + [last] && handed[|told|] == last;
    } else {
      assert handed == all[..|handed|] == told[..|handed|];
    }
  }

  /** From an empty queue, a barge-in, any run of audio and a fatal error leave the pipeline running. */
  lemma FatalErrorBehindABargeIn(params: Params, media: MediaFormat, pending: seq<Frame>, audio: seq<seq<Frame>>,
                                 error: Message)
    requires params.speechFrames == User && params.autoInterrupt && pending == []
    requires error.EngineError? && error.fatal
    requires forall i :: 0 <= i < |audio| ==> audio[i] != [] && CancelWorker(error.text) !in audio[i]
    ensures var produced := [FramesFor(params, media, SpeechStarted)] + audio + [FramesFor(params, media, error)];
            CancelWorker(error.text) !in Frames(Returned(pending, produced))
  {
    var first, last := FramesFor(params, media, SpeechStarted), CancelWorker(error.text);
    StuckBehindABurst(pending, first, audio, last);
    assert FramesFor(params, media, error) == [last];
  }

  lemma StuckBehindABurst(none: seq<Frame>, first: seq<Frame>, audio: seq<seq<Frame>>, last: Frame)
    requires none == [] && |first| == 2 && last !in first
    requires forall i :: 0 <= i < |audio| ==> audio[i] != [] && last !in audio[i]
    ensures last !in Frames(Returned(none, [first] + audio + [[last]]))
  {
    var produced := [first] + audio;
    assert produced[0] == first && forall i :: 1 <= i < |produced| ==> produced[i] == audio[i - 1];
    NotInFlatten(last, produced);
    BargeInWaits(none, first, audio);
    LastFrameHandedOutIff(none, produced, last);
  }

  lemma BargeInWaits(none: seq<Frame>, first: seq<Frame>, audio: seq<seq<Frame>>)
    requires none == [] && |first| == 2
    requires forall i :: 0 <= i < |audio| ==> audio[i] != []
    ensures Waiting(none, [first] + audio) != []
  {
    WaitingAppend(none, [first], audio);
    assert [first][1..] == [];
    assert none + first == first;
    assert Waiting(none, [first]) == first[1..];
    FramesNeverDrainTheQueue(first[1..], audio);
  }

  lemma {:induction false} NotInFlatten(frame: Frame, produced: seq<seq<Frame>>)
    requires forall i :: 0 <= i < |produced| ==> frame !in produced[i]
    ensures frame !in Flatten(produced)
  {
    if produced != [] {
      NotInFlatten(frame, produced[1..]);
    }
  }

  // What a run's frames say, against what its messages said.

  function Single<A>(x: Option<A>): seq<A> {
    if x.Some? then [x.value] else []
  }

  /** What `pick` finds in a list, in order. */
  function Collect<X, A>(xs: seq<X>, pick: X -> Option<A>): seq<A> {
    if xs == [] then [] else Single(pick(xs[0])) + Collect(xs[1..], pick)
  }

  lemma {:induction false} CollectAppend<X, A>(a: seq<X>, b: seq<X>, pick: X -> Option<A>)
    ensures Collect(a + b, pick) == Collect(a, pick) + Collect(b, pick)
  {
    if a == [] {
      assert a + b == b;
    } else {
      assert (a + b)[1..] == a[1..] + b;
      CollectAppend(a[1..], b, pick);
      Associative(Single(pick(a[0])), Collect(a[1..], pick), Collect(b, pick));
    }
  }

  /** A message means two frames at most. */
  lemma CollectFew<X, A>(xs: seq<X>, pick: X -> Option<A>)
    requires |xs| <= 2
    ensures Collect(xs, pick) == (if |xs| > 0 then Single(pick(xs[0])) else []) + (if |xs| > 1 then Single(pick(xs[1])) else [])
  {
    if |xs| == 2 {
      assert xs[1..][1..] == [];
    }
  }

  /** The format last announced before message `i`. */
  function FormatAt(media: MediaFormat, messages: seq<Message>, i: nat): MediaFormat
    requires i <= |messages|
  {
    if i == 0 then media
    else if messages[i - 1].Start? || messages[i - 1].Renegotiate? then messages[i - 1].media
    else FormatAt(media, messages, i - 1)
  }

  datatype Sent = Sent(format: MediaFormat, message: Message)

  /** Each message with the format it came under. */
  function UnderFormats(media: MediaFormat, messages: seq<Message>): (r: seq<Sent>)
    ensures |r| == |messages|
  {
    seq(|messages|, i requires 0 <= i < |messages| => Sent(FormatAt(media, messages, i), messages[i]))
  }

  lemma {:induction false} FormatFromNext(media: MediaFormat, messages: seq<Message>, i: nat)
    requires i < |messages|
    ensures FormatAt(media, messages, i + 1) == FormatAt(MediaAfter(media, messages[0]), messages[1..], i)
  {
    if i > 0 {
      FormatFromNext(media, messages, i - 1);
    }
  }

  lemma UnderFormatsNext(media: MediaFormat, messages: seq<Message>)
    requires messages != []
    ensures UnderFormats(media, messages)
         == [Sent(media, messages[0])] + UnderFormats(MediaAfter(media, messages[0]), messages[1..])
  {
    forall i | 0 < i < |messages|
      ensures FormatAt(media, messages, i) == FormatAt(MediaAfter(media, messages[0]), messages[1..], i - 1)
    {
      FormatFromNext(media, messages, i - 1);
    }
  }

  /** Everything a run has handed out, and then what waits. */
  function Out(params: Params, media: MediaFormat, messages: seq<Message>): seq<Frame> {
    var produced := Produced(params, media, messages);
    Frames(Returned([], produced)) + Waiting([], produced)
  }

  lemma OutIsMeant(params: Params, media: MediaFormat, messages: seq<Message>)
    ensures Out(params, media, messages) == Flatten(Produced(params, media, messages))
  {
    NothingLostOrReordered([], Produced(params, media, messages));
  }

  /** Where one message means, of one kind, what `meant` says, so does a run. */
  ghost predicate Conveys<A(!new)>(params: Params, pick: Frame -> Option<A>, meant: Sent -> Option<A>) {
    forall format, message ::
      Collect(FramesFor(params, format, message), pick) == Single(meant(Sent(format, message)))
  }

  lemma {:induction false} MeantIsConveyed<A(!new)>(params: Params, media: MediaFormat, messages: seq<Message>,
                                              pick: Frame -> Option<A>, meant: Sent -> Option<A>)
    requires Conveys(params, pick, meant)
    ensures Collect(Flatten(Produced(params, media, messages)), pick) == Collect(UnderFormats(media, messages), meant)
    decreases messages
  {
    if messages != [] {
      var next, first := MediaAfter(media, messages[0]), FramesFor(params, media, messages[0]);
      var produced, sent := Produced(params, media, messages), Sent(media, messages[0]);
      assert produced[0] == first && produced[1..] == Produced(params, next, messages[1..]);
      MeantIsConveyed(params, next, messages[1..], pick, meant);
      CollectAppend(first, Flatten(produced[1..]), pick);
      UnderFormatsNext(media, messages);
      assert UnderFormats(media, messages)[1..] == UnderFormats(next, messages[1..]);
    }
  }

  lemma RunConveys<A(!new)>(params: Params, media: MediaFormat, messages: seq<Message>,
                      pick: Frame -> Option<A>, meant: Sent -> Option<A>)
    requires Conveys(params, pick, meant)
    ensures Collect(Out(params, media, messages), pick) == Collect(UnderFormats(media, messages), meant)
  {
    OutIsMeant(params, media, messages);
    MeantIsConveyed(params, media, messages, pick, meant);
  }

  datatype Edge = Began | Over

  function UserEdge(frame: Frame): Option<Edge> {
    if frame == UserStartedSpeaking then Some(Began) else if frame == UserStoppedSpeaking then Some(Over) else None
  }

  function VadEdge(frame: Frame): Option<Edge> {
    if frame == VadUserStartedSpeaking then Some(Began) else if frame == VadUserStoppedSpeaking then Some(Over) else None
  }

  /** The engine's own report of where the caller's speech began and ended. */
  function SpeechEdge(mode: SpeechFrames): Sent -> Option<Edge> {
    (s: Sent) => if mode == Unreported then None
                 else if s.message == SpeechStarted then Some(Began) else if s.message == SpeechStopped then Some(Over) else None
  }

  /** Turns begin and end, in order, exactly as the engine says, as frames of the mode's kind and of no other. */
  lemma TurnsAreTheEngines(params: Params, media: MediaFormat, messages: seq<Message>)
    ensures var out, said := Out(params, media, messages), UnderFormats(media, messages);
      && Collect(out, UserEdge) == Collect(said, SpeechEdge(if params.speechFrames == User then User else Unreported))
      && Collect(out, VadEdge) == Collect(said, SpeechEdge(if params.speechFrames == Vad then Vad else Unreported))
  {
    var user := SpeechEdge(if params.speechFrames == User then User else Unreported);
    var vad := SpeechEdge(if params.speechFrames == Vad then Vad else Unreported);
    forall format, message ensures Collect(FramesFor(params, format, message), UserEdge) == Single(user(Sent(format, message))) {
      UserEdgeOf(params, format, message);
    }
    forall format, message ensures Collect(FramesFor(params, format, message), VadEdge) == Single(vad(Sent(format, message))) {
      VadEdgeOf(params, format, message);
    }
    RunConveys(params, media, messages, UserEdge, user);
    RunConveys(params, media, messages, VadEdge, vad);
  }

  lemma UserEdgeOf(params: Params, format: MediaFormat, message: Message)
    ensures Collect(FramesFor(params, format, message), UserEdge)
         == Single(SpeechEdge(if params.speechFrames == User then User else Unreported)(Sent(format, message)))
  {
    CollectFew(FramesFor(params, format, message), UserEdge);
  }

  lemma VadEdgeOf(params: Params, format: MediaFormat, message: Message)
    ensures Collect(FramesFor(params, format, message), VadEdge)
         == Single(SpeechEdge(if params.speechFrames == Vad then Vad else Unreported)(Sent(format, message)))
  {
    CollectFew(FramesFor(params, format, message), VadEdge);
  }

  /** Each interruption comes right after a turn's start; and each start brings one, where that is asked for. */
  ghost predicate BargesIn(frames: seq<Frame>, asked: bool) {
    && (forall i :: 0 <= i < |frames| && frames[i] == InterruptionWorker ==> asked && i > 0 && frames[i - 1] == UserStartedSpeaking)
    && (asked ==> forall i :: 0 <= i < |frames| && frames[i] == UserStartedSpeaking ==>
          i + 1 < |frames| && frames[i + 1] == InterruptionWorker)
  }

  lemma BargesInAppend(a: seq<Frame>, b: seq<Frame>, asked: bool)
    requires BargesIn(a, asked) && BargesIn(b, asked)
    ensures BargesIn(a + b, asked)
  {
    var all := a + b;
    forall i | |a| <= i < |all| && all[i] == InterruptionWorker ensures asked && i > 0 && all[i - 1] == UserStartedSpeaking {
      assert b[i - |a|] == InterruptionWorker;
    }
    if asked {
      forall i | 0 <= i < |all| && all[i] == UserStartedSpeaking
        ensures i + 1 < |all| && all[i + 1] == InterruptionWorker
      {
        if i >= |a| {
          assert b[i - |a|] == UserStartedSpeaking;
        }
      }
    }
  }

  lemma {:induction false} BargesInFlatten(produced: seq<seq<Frame>>, asked: bool)
    requires forall i :: 0 <= i < |produced| ==> BargesIn(produced[i], asked)
    ensures BargesIn(Flatten(produced), asked)
  {
    if produced != [] {
      BargesInFlatten(produced[1..], asked);
      BargesInAppend(produced[0], Flatten(produced[1..]), asked);
    }
  }

  lemma {:induction false} EachBargesIn(params: Params, media: MediaFormat, messages: seq<Message>, i: nat)
    requires i < |messages|
    ensures BargesIn(Produced(params, media, messages)[i], params.speechFrames == User && params.autoInterrupt)
    decreases messages
  {
    if i > 0 {
      EachBargesIn(params, MediaAfter(media, messages[0]), messages[1..], i - 1);
    }
  }

  /** The pipeline is interrupted right where the caller starts to speak, exactly with auto-interrupt in user mode. */
  lemma InterruptionsFollowTheStarts(params: Params, media: MediaFormat, messages: seq<Message>)
    ensures BargesIn(Out(params, media, messages), params.speechFrames == User && params.autoInterrupt)
  {
    var produced, asked := Produced(params, media, messages), params.speechFrames == User && params.autoInterrupt;
    forall i | 0 <= i < |produced| ensures BargesIn(produced[i], asked) {
      EachBargesIn(params, media, messages, i);
    }
    BargesInFlatten(produced, asked);
    OutIsMeant(params, media, messages);
  }

  function DigitOf(frame: Frame): Option<char> {
    if frame.InputDtmf? then Some(frame.digit) else None
  }

  function KeyPressed(s: Sent): Option<char> {
    if s.message.Dtmf? && s.message.digit in "0123456789*#" then Some(s.message.digit) else None
  }

  /** The digits are the keypad's of those received, in order. */
  lemma DigitsAreThosePressed(params: Params, media: MediaFormat, messages: seq<Message>)
    ensures Collect(Out(params, media, messages), DigitOf) == Collect(UnderFormats(media, messages), KeyPressed)
  {
    forall format, message
      ensures Collect(FramesFor(params, format, message), DigitOf) == Single(KeyPressed(Sent(format, message)))
    {
      DigitIs(params, format, message);
    }
    RunConveys(params, media, messages, DigitOf, KeyPressed);
  }

  lemma DigitIs(params: Params, format: MediaFormat, message: Message)
    ensures Collect(FramesFor(params, format, message), DigitOf) == Single(KeyPressed(Sent(format, message)))
  {
    CollectFew(FramesFor(params, format, message), DigitOf);
    if message.Dtmf? {
      Keypad(message.digit);
    }
  }

  lemma Keypad(digit: char)
    ensures digit in KEYPAD <==> digit in "0123456789*#"
  {
  }

  function AudioOf(frame: Frame): Option<seq<byte>> {
    if frame.InputAudio? then Some(frame.pcm) else None
  }

  /** Whole samples for every channel of the format in force, of one speaker or two, and something to hear. */
  function Spoken(s: Sent): Option<seq<byte>> {
    if s.message.Audio? && s.message.payload != [] && s.message.pcm != []
       && (s.format.encoding == L16 ==> || (s.format.channels == 1 && |s.message.payload| % 2 == 0)
                                        || (s.format.channels == 2 && |s.message.payload| % 4 == 0))
    then Some(s.message.pcm) else None
  }

  /** The audio is that of the messages that fit the format last announced, in order. */
  lemma AudioIsWhatFits(params: Params, media: MediaFormat, messages: seq<Message>)
    ensures Collect(Out(params, media, messages), AudioOf) == Collect(UnderFormats(media, messages), Spoken)
  {
    forall format, message ensures Collect(FramesFor(params, format, message), AudioOf) == Single(Spoken(Sent(format, message))) {
      AudioIs(params, format, message);
    }
    RunConveys(params, media, messages, AudioOf, Spoken);
  }

  lemma AudioIs(params: Params, format: MediaFormat, message: Message)
    ensures Collect(FramesFor(params, format, message), AudioOf) == Single(Spoken(Sent(format, message)))
  {
    CollectFew(FramesFor(params, format, message), AudioOf);
  }

  datatype Notice = Ends(reason: string) | Fatal(text: string) | Trouble(text: string) | Played

  function NoticeOf(frame: Frame): Option<Notice> {
    match frame
    case EndWorker(reason) => Some(Ends(reason))
    case CancelWorker(reason) => Some(Fatal(reason))
    case ErrorFrame(error) => Some(Trouble(error))
    case BotStoppedSpeaking => Some(Played)
    case _ => None
  }

  function Noticed(marks: bool): Sent -> Option<Notice> {
    (s: Sent) => match s.message
                 case Stop(reason) => Some(Ends(reason))
                 case EngineError(text, fatal) => Some(if fatal then Fatal(text) else Trouble(text))
                 case Mark(_) => if marks then Some(Played) else None
                 case _ => None
  }

  /** One frame for each stop, each error by its kind, and each mark where those are asked for, in order. */
  lemma NoticesAreTheEngines(params: Params, media: MediaFormat, messages: seq<Message>)
    ensures Collect(Out(params, media, messages), NoticeOf)
         == Collect(UnderFormats(media, messages), Noticed(params.emitBotSpeakingFrames))
  {
    var noticed := Noticed(params.emitBotSpeakingFrames);
    forall format, message ensures Collect(FramesFor(params, format, message), NoticeOf) == Single(noticed(Sent(format, message))) {
      NoticeIs(params, format, message);
    }
    RunConveys(params, media, messages, NoticeOf, noticed);
  }

  lemma NoticeIs(params: Params, format: MediaFormat, message: Message)
    ensures Collect(FramesFor(params, format, message), NoticeOf)
         == Single(Noticed(params.emitBotSpeakingFrames)(Sent(format, message)))
  {
    CollectFew(FramesFor(params, format, message), NoticeOf);
  }
}

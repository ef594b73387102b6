/**
 The tap on the engine's control plane: every byte goes through unchanged, and a copy is cut into
 length-prefixed frames for the transcript, whatever chunks the bytes arrive in.
 */
module ControlTap {
  import opened Sequences
  import opened Wire

  const LENGTH_PREFIX_BYTES := 4
  const MAXIMUM_FRAME_BYTES := 0x10_0000
  const DESYNC_SAMPLE_BYTES := 64

  datatype Record = Framed(payload: seq<byte>) | Desync(sample: seq<byte>)

  /** One turn of the relay's reader: a chunk (empty at the end of the stream), or a reset connection. */
  datatype Read = Data(chunk: seq<byte>, drains: bool) | Reset

  function Length(prefix: seq<byte>): nat
    requires |prefix| >= LENGTH_PREFIX_BYTES
  {
    ReadU32(prefix, 0)
  }

  predicate Oversized(buffer: seq<byte>) {
    |buffer| >= LENGTH_PREFIX_BYTES && Length(buffer) > MAXIMUM_FRAME_BYTES
  }

  predicate HoldsFrame(buffer: seq<byte>) {
    |buffer| >= LENGTH_PREFIX_BYTES && !Oversized(buffer) && |buffer| >= LENGTH_PREFIX_BYTES + Length(buffer)
  }

  function Body(buffer: seq<byte>): seq<byte>
    requires HoldsFrame(buffer)
  {
    buffer[LENGTH_PREFIX_BYTES..LENGTH_PREFIX_BYTES + Length(buffer)]
  }

  function AfterFrame(buffer: seq<byte>): seq<byte>
    requires HoldsFrame(buffer)
  {
    buffer[LENGTH_PREFIX_BYTES + Length(buffer)..]
  }

  /** Batch deframing of a whole stream: its complete frames, up to the first oversized prefix. */
  function Deframe(stream: seq<byte>): seq<seq<byte>>
    decreases |stream|
  {
    if HoldsFrame(stream) then [Body(stream)] + Deframe(AfterFrame(stream)) else []
  }

  /** What batch deframing leaves: an incomplete frame, or everything from the oversized prefix on. */
  function Rest(stream: seq<byte>): (r: seq<byte>)
    ensures !HoldsFrame(r)
    decreases |stream|
  {
    if HoldsFrame(stream) then Rest(AfterFrame(stream)) else stream
  }

  predicate Sendable(frame: seq<byte>) {
    |frame| <= MAXIMUM_FRAME_BYTES
  }

  /** What a peer puts on the wire for `frames`. */
  function Encode(frames: seq<seq<byte>>): seq<byte>
    requires forall i :: 0 <= i < |frames| ==> Sendable(frames[i])
  {
    if frames == [] then []
    else
      assert Sendable(frames[0]);
      U32(|frames[0]|) + frames[0] + Encode(frames[1..])
  }

  lemma OneFrame(frame: seq<byte>, after: seq<byte>)
    requires Sendable(frame)
    ensures var stream := U32(|frame|) + frame + after;
            HoldsFrame(stream) && Body(stream) == frame && AfterFrame(stream) == after
  {
    var prefix := U32(|frame|);
    var stream := prefix + frame + after;
    assert stream[..LENGTH_PREFIX_BYTES] == prefix;
    assert Length(stream) == Length(prefix);
  }

  /** Deframing inverts framing: frames followed by anything come back, and only they are taken. */
  lemma {:induction false} DeframeEncode(frames: seq<seq<byte>>, tail: seq<byte>)
    requires forall i :: 0 <= i < |frames| ==> Sendable(frames[i])
    ensures Deframe(Encode(frames) + tail) == frames + Deframe(tail)
    ensures Rest(Encode(frames) + tail) == Rest(tail)
  {
    if frames == [] {
      assert Encode(frames) + tail == tail;
    } else {
      var first, after := frames[0], Encode(frames[1..]) + tail;
      assert Sendable(first);
      DeframeEncode(frames[1..], tail);
      OneFrame(first, after);
      Associative(U32(|first|) + first, Encode(frames[1..]), tail);
      Associative([first], frames[1..], Deframe(tail));
      assert [first] + frames[1..] == frames;
    }
  }

  /** Conversely, every stream is the framing of its frames, then what is left over. */
  lemma {:induction false} EncodeDeframe(stream: seq<byte>)
    ensures forall i :: 0 <= i < |Deframe(stream)| ==> Sendable(Deframe(stream)[i])
    ensures stream == Encode(Deframe(stream)) + Rest(stream)
    decreases |stream|
  {
    if HoldsFrame(stream) {
      var after := AfterFrame(stream);
      EncodeDeframe(after);
      SplitFrame(stream);
      EncodeCons(Body(stream), Deframe(after));
      Associative(U32(|Body(stream)|) + Body(stream), Encode(Deframe(after)), Rest(after));
    }
  }

  lemma SplitFrame(stream: seq<byte>)
    requires HoldsFrame(stream)
    ensures Sendable(Body(stream)) && stream == U32(|Body(stream)|) + Body(stream) + AfterFrame(stream)
  {
    U32OfRead(stream, 0);
    assert stream == stream[..LENGTH_PREFIX_BYTES] + Body(stream) + AfterFrame(stream);
  }

  lemma EncodeCons(first: seq<byte>, frames: seq<seq<byte>>)
    requires Sendable(first)
    requires forall i :: 0 <= i < |frames| ==> Sendable(frames[i])
    ensures forall i :: 0 <= i < |[first] + frames| ==> Sendable(([first] + frames)[i])
    ensures Encode([first] + frames) == U32(|first|) + first + Encode(frames)
  {
    assert ([first] + frames)[1..] == frames;
  }

  /** Deframing resumes: cutting the stream anywhere and carrying the leftover over changes nothing. */
  lemma {:induction false} DeframeResumes(stream: seq<byte>, more: seq<byte>)
    ensures Deframe(stream + more) == Deframe(stream) + Deframe(Rest(stream) + more)
    ensures Rest(stream + more) == Rest(Rest(stream) + more)
    decreases |stream|
  {
    if HoldsFrame(stream) {
      var all := stream + more;
      assert all[..LENGTH_PREFIX_BYTES] == stream[..LENGTH_PREFIX_BYTES];
      assert Length(all) == Length(stream);
      assert Body(all) == Body(stream);
      assert AfterFrame(all) == AfterFrame(stream) + more;
      DeframeResumes(AfterFrame(stream), more);
    }
  }

  /** Bytes the relay forwards: every chunk before the end, the one whose drain failed included. */
  function Forwarded(turns: seq<Read>): seq<byte> {
    if turns == [] || turns[0].Reset? || turns[0].chunk == [] then []
    else turns[0].chunk + if turns[0].drains then Forwarded(turns[1..]) else []
  }

  /** Bytes the relay also decodes: every chunk before the end whose drain succeeded. */
  function Tapped(turns: seq<Read>): seq<byte> {
    if turns == [] || turns[0].Reset? || turns[0].chunk == [] || !turns[0].drains then []
    else turns[0].chunk + Tapped(turns[1..])
  }

  function FramedAll(frames: seq<seq<byte>>): (r: seq<Record>)
    ensures |r| == |frames|
  {
    seq(|frames|, i requires 0 <= i < |frames| => Framed(frames[i]))
  }

  /** The desync record: the first 64 bytes of what was buffered when the oversized prefix was seen. */
  function Sample(buffered: seq<byte>): seq<byte> {
    if |buffered| <= DESYNC_SAMPLE_BYTES then buffered else buffered[..DESYNC_SAMPLE_BYTES]
  }

  /** The transcript of a stream: exactly its frames, then one desync record if it ran out of sync. */
  ghost predicate Transcribes(records: seq<Record>, stream: seq<byte>) {
    var frames := FramedAll(Deframe(stream));
    if !Oversized(Rest(stream)) then records == frames
    else
      && |records| == |frames| + 1 && records[..|frames|] == frames && records[|frames|].Desync?
      && LENGTH_PREFIX_BYTES <= |records[|frames|].sample| <= DESYNC_SAMPLE_BYTES
      && records[|frames|].sample <= Rest(stream)
  }

  /** Out of sync is for good: more bytes add no frame, and only extend what is left over. */
  lemma DesyncIsFinal(stream: seq<byte>, more: seq<byte>)
    requires Oversized(Rest(stream))
    ensures Deframe(stream + more) == Deframe(stream)
    ensures Rest(stream + more) == Rest(stream) + more
  {
    DeframeResumes(stream, more);
    var left := Rest(stream) + more;
    assert left[..LENGTH_PREFIX_BYTES] == Rest(stream)[..LENGTH_PREFIX_BYTES];
    assert Oversized(left);
  }

  /** Between two turns of the inner loop: `taken` is off the buffer and on the transcript. */
  predicate Taking(buffered: seq<byte>, transcript: seq<Record>, taken: seq<seq<byte>>, buffer: seq<byte>, records: seq<Record>) {
    && Deframe(buffered) == taken + Deframe(buffer) && Rest(buffered) == Rest(buffer)
    && records == transcript + FramedAll(taken)
  }

  lemma TakeOne(buffered: seq<byte>, transcript: seq<Record>, taken: seq<seq<byte>>, buffer: seq<byte>, records: seq<Record>)
    requires Taking(buffered, transcript, taken, buffer, records) && HoldsFrame(buffer)
    ensures Taking(buffered, transcript, taken + [Body(buffer)], AfterFrame(buffer), records + [Framed(Body(buffer))])
  {
    var more := taken + [Body(buffer)];
    Associative(taken, [Body(buffer)], Deframe(AfterFrame(buffer)));
    assert FramedAll(more) == FramedAll(taken) + [Framed(Body(buffer))];
    Associative(transcript, FramedAll(taken), [Framed(Body(buffer))]);
  }

  lemma TakenAll(buffered: seq<byte>, transcript: seq<Record>, taken: seq<seq<byte>>, buffer: seq<byte>, records: seq<Record>)
    requires Taking(buffered, transcript, taken, buffer, records) && !HoldsFrame(buffer)
    ensures taken == Deframe(buffered) && Rest(buffered) == buffer
  {
  }

  /** Take the complete frames off `buffer`, as far as the first oversized prefix. */
  method TakeFrames(buffered: seq<byte>, transcript: seq<Record>)
    returns (buffer: seq<byte>, records: seq<Record>, synchronised: bool)
    ensures synchronised == !Oversized(Rest(buffered))
    ensures buffer == if synchronised then Rest(buffered) else []
    ensures records == transcript + FramedAll(Deframe(buffered))
                       + if synchronised then [] else [Desync(Sample(Rest(buffered)))]
  {
    buffer, records, synchronised := buffered, transcript, true;
    ghost var taken := [];
    while |buffer| >= LENGTH_PREFIX_BYTES
      invariant synchronised && Taking(buffered, transcript, taken, buffer, records)
      decreases |buffer|
    {
      var length := Length(buffer);
      if length > MAXIMUM_FRAME_BYTES {
        TakenAll(buffered, transcript, taken, buffer, records);
        records := records + [Desync(Sample(buffer))];
        buffer, synchronised := [], false;
        return;
      }
      if |buffer| < LENGTH_PREFIX_BYTES + length {
        break;
      }
      TakeOne(buffered, transcript, taken, buffer, records);
      taken := taken + [Body(buffer)];
      records := records + [Framed(buffer[LENGTH_PREFIX_BYTES..LENGTH_PREFIX_BYTES + length])];
      buffer := buffer[LENGTH_PREFIX_BYTES + length..];
    }
    TakenAll(buffered, transcript, taken, buffer, records);
  }

  /** The relay's decoder, once it has been fed `stream`. */
  ghost predicate Follows(stream: seq<byte>, records: seq<Record>, buffer: seq<byte>, synchronised: bool) {
    && Transcribes(records, stream)
    && synchronised == !Oversized(Rest(stream))
    && (synchronised ==> buffer == Rest(stream))
  }

  lemma FollowsWhenLost(stream: seq<byte>, chunk: seq<byte>, records: seq<Record>, buffer: seq<byte>)
    requires Follows(stream, records, buffer, false)
    ensures Follows(stream + chunk, records, buffer, false)
  {
    DesyncIsFinal(stream, chunk);
  }

  lemma FollowsMore(stream: seq<byte>, chunk: seq<byte>, records: seq<Record>, buffer: seq<byte>, more: seq<Record>)
    requires Follows(stream, records, buffer, true)
    requires var left := buffer + chunk;
             more == records + FramedAll(Deframe(left))
                      + if !Oversized(Rest(left)) then [] else [Desync(Sample(Rest(left)))]
    ensures var left := Rest(buffer + chunk);
            Follows(stream + chunk, more, if Oversized(left) then [] else left, !Oversized(left))
    ensures Oversized(Rest(stream + chunk)) ==> LastIs(more, stream + chunk)
  {
    DeframeResumes(stream, chunk);
    TranscriptGrows(records, more, stream, chunk);
  }

  /** The transcript ends with the desync record of a stream that stood so. */
  predicate LastIs(records: seq<Record>, stream: seq<byte>) {
    var left := Rest(stream);
    records != [] && records[|records| - 1] == Desync(if |left| <= 64 then left else left[..64])
  }

  /** A turn that brings bytes to decode. */
  predicate Brings(turn: Read) {
    turn.Data? && turn.chunk != [] && turn.drains
  }

  lemma {:induction false} TappedSnoc(turns: seq<Read>, i: nat)
    requires i < |turns| && Brings(turns[i]) && forall j :: 0 <= j < i ==> Brings(turns[j])
    ensures Tapped(turns[..i + 1]) == Tapped(turns[..i]) + turns[i].chunk
  {
    if i == 0 {
      assert turns[..1][1..] == [] && turns[..0] == [];
    } else {
      assert turns[..i + 1][1..] == turns[1..][..i] && turns[..i][1..] == turns[1..][..i - 1];
      TappedSnoc(turns[1..], i - 1);
      Associative(turns[0].chunk, Tapped(turns[1..][..i - 1]), turns[i].chunk);
    }
  }

  /** The chunk of turn `k` is the first after which the stream is out of sync. */
  predicate LostAt(turns: seq<Read>, k: nat) {
    k < |turns| && !Oversized(Rest(Tapped(turns[..k]))) && Oversized(Rest(Tapped(turns[..k + 1])))
  }

  /** More turns only extend what is tapped. */
  lemma {:induction false} TappedGrows(turns: seq<Read>, i: nat)
    requires i <= |turns|
    ensures Tapped(turns[..i]) <= Tapped(turns)
  {
    if i > 0 && Brings(turns[0]) {
      assert turns[..i][1..] == turns[1..][..i - 1];
      TappedGrows(turns[1..], i - 1);
    }
  }

  /** There is only one such turn: once out of sync, a stream stays so. */
  lemma LostOnce(turns: seq<Read>, k: nat, l: nat)
    requires LostAt(turns, k) && LostAt(turns, l)
    ensures k == l
  {
    if k < l {
      StillLost(turns, k + 1, l);
    } else if l < k {
      StillLost(turns, l + 1, k);
    }
  }

  lemma StillLost(turns: seq<Read>, i: nat, j: nat)
    requires i <= j <= |turns| && Oversized(Rest(Tapped(turns[..i])))
    ensures Oversized(Rest(Tapped(turns[..j])))
  {
    assert turns[..j][..i] == turns[..i];
    TappedGrows(turns[..j], i);
    var before, after := Tapped(turns[..i]), Tapped(turns[..j]);
    assert after == before + after[|before|..];
    DesyncIsFinal(before, after[|before|..]);
  }

  /** Before turn `i`, with every turn so far bringing bytes, `sofar` has been read. */
  ghost predicate ReadTo(turns: seq<Read>, i: nat, sofar: seq<byte>) {
    && i <= |turns| && (forall j :: 0 <= j < i ==> Brings(turns[j])) && sofar == Tapped(turns[..i])
    && Forwarded(turns) == sofar + Forwarded(turns[i..]) && Tapped(turns) == sofar + Tapped(turns[i..])
  }

  lemma TurnAt(turns: seq<Read>, i: nat, sofar: seq<byte>)
    requires ReadTo(turns, i, sofar) && i < |turns| && turns[i].Data? && turns[i].chunk != []
    ensures turns[i].drains ==> ReadTo(turns, i + 1, sofar + turns[i].chunk)
    ensures !turns[i].drains ==> Forwarded(turns) == sofar + turns[i].chunk && Tapped(turns) == sofar
  {
    assert turns[i..][1..] == turns[i + 1..];
    Associative(sofar, turns[i].chunk, Forwarded(turns[i + 1..]));
    Associative(sofar, turns[i].chunk, Tapped(turns[i + 1..]));
    if turns[i].drains {
      TappedSnoc(turns, i);
    }
  }

  lemma NoMoreTurns(turns: seq<Read>, i: nat, sofar: seq<byte>)
    requires ReadTo(turns, i, sofar) && (i < |turns| ==> turns[i].Reset? || turns[i].chunk == [])
    ensures Forwarded(turns) == Tapped(turns) == sofar
  {
    assert Tapped(turns[i..]) == [] && Forwarded(turns[i..]) == [];
  }

  /** The transcript ends with the desync record of the stream as turn `k` left it, and that was the turn. */
  ghost predicate LostWith(turns: seq<Read>, k: nat, records: seq<Record>) {
    LostAt(turns, k) && LastIs(records, Tapped(turns[..k + 1]))
  }

  /** Forward one direction verbatim, decoding a copy into the transcript; `lost` is the turn it lost the framing on. */
  method Relay(turns: seq<Read>)
    returns (forwarded: seq<byte>, records: seq<Record>, buffer: seq<byte>, synchronised: bool, ghost lost: nat)
    ensures forwarded == Forwarded(turns)
    ensures Follows(Tapped(turns), records, buffer, synchronised)
    ensures !synchronised ==> LostWith(turns, lost, records)
  {
    forwarded, records, buffer, synchronised, lost := [], [], [], true, 0;
    var i := 0;
    while i < |turns|
      invariant ReadTo(turns, i, forwarded)
      invariant Follows(forwarded, records, buffer, synchronised)
      invariant !synchronised ==> LostWith(turns, lost, records)
    {
      if turns[i].Reset? || turns[i].chunk == [] {
        NoMoreTurns(turns, i, forwarded);
        return;
      }
      TurnAt(turns, i, forwarded);
      var chunk := turns[i].chunk;
      ghost var sofar, sofarRecords, sofarBuffer := forwarded, records, buffer;
      forwarded := forwarded + chunk;
      if !turns[i].drains {
        return;
      }
      if synchronised {
        buffer, records, synchronised := TakeFrames(buffer + chunk, records);
        FollowsMore(sofar, chunk, sofarRecords, sofarBuffer, records);
        lost := i;
      } else {
        FollowsWhenLost(sofar, chunk, records, buffer);
      }
      i := i + 1;
    }
    NoMoreTurns(turns, i, forwarded);
  }

  /** While the framing holds, what stays buffered between reads is an incomplete frame, so it is bounded. */
  lemma BufferIsAnIncompleteFrame(stream: seq<byte>, records: seq<Record>, buffer: seq<byte>)
    requires Follows(stream, records, buffer, true)
    ensures !HoldsFrame(buffer) && !Oversized(buffer) && |buffer| < LENGTH_PREFIX_BYTES + MAXIMUM_FRAME_BYTES
  {
  }

  lemma TranscriptGrows(before: seq<Record>, after: seq<Record>, stream: seq<byte>, chunk: seq<byte>)
    requires !Oversized(Rest(stream)) && before == FramedAll(Deframe(stream))
    requires var left := Rest(stream) + chunk;
             after == before + FramedAll(Deframe(left))
                      + if !Oversized(Rest(left)) then [] else [Desync(Sample(Rest(left)))]
    ensures Transcribes(after, stream + chunk)
    ensures Oversized(Rest(stream + chunk)) ==> after[|after| - 1] == Desync(Sample(Rest(stream + chunk)))
  {
    DeframeResumes(stream, chunk);
    var left := Rest(stream) + chunk;
    assert FramedAll(Deframe(stream + chunk)) == before + FramedAll(Deframe(left));
  }

  function Chunks(turns: seq<Read>): (r: seq<seq<byte>>)
    requires forall i :: 0 <= i < |turns| ==> Brings(turns[i])
    ensures |r| == |turns|
  {
    seq(|turns|, i requires 0 <= i < |turns| => assert Brings(turns[i]); turns[i].chunk)
  }

  /** What goes through is every chunk as far as the first turn that brings none, and that turn's if only its drain failed. */
  lemma {:induction false} ForwardedIsTheChunks(turns: seq<Read>, n: nat)
    requires n <= |turns| && (forall i :: 0 <= i < n ==> Brings(turns[i])) && (n < |turns| ==> !Brings(turns[n]))
    ensures Tapped(turns) == Flatten(Chunks(turns[..n]))
    ensures Forwarded(turns) == Tapped(turns) + if n < |turns| && turns[n].Data? then turns[n].chunk else []
  {
    if n > 0 {
      var rest := turns[1..];
      ForwardedIsTheChunks(rest, n - 1);
      assert rest[..n - 1] == turns[..n][1..];
      assert Chunks(turns[..n])[1..] == Chunks(turns[..n][1..]);
      Associative(turns[0].chunk, Tapped(rest), if n < |turns| && turns[n].Data? then turns[n].chunk else []);
    }
  }
}

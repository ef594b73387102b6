/**
 RTP packets (sections 5.1 and 5.3.1 of RFC 3550): the fixed header the caller sends, the whole header
 grammar it reads back, and the sender's sequence and timestamp.
 */
module RtpPacket {
  import opened Sequences
  import opened Wire

  const VERSION := 2
  const FIXED_HEADER_BYTES := 12
  const EXTENSION_HEADER_BYTES := 4

  datatype RtpHeader = RtpHeader(payloadType: int, marker: bool, sequence: int, timestamp: int, ssrc: int)

  datatype Extension = Extension(profile: seq<byte>, data: seq<byte>)

  /** Everything a packet is built from. The padding ends in a byte that counts it. */
  datatype Packet = Packet(header: RtpHeader, csrcs: seq<byte>, extension: Option<Extension>, payload: seq<byte>,
                           padding: seq<byte>)

  predicate InRange(h: RtpHeader) {
    0 <= h.payloadType < 0x80 && 0 <= h.sequence < WORD && 0 <= h.timestamp < LONG && 0 <= h.ssrc < LONG
  }

  predicate ValidExtension(x: Extension) {
    |x.profile| == 2 && |x.data| % 4 == 0 && |x.data| / 4 < WORD
  }

  predicate ValidPadding(padding: seq<byte>) {
    padding == [] || (|padding| < 0x100 && padding[|padding| - 1] == |padding|)
  }

  predicate Valid(p: Packet) {
    && InRange(p.header)
    && |p.csrcs| % 4 == 0 && |p.csrcs| / 4 < 16
    && (p.extension.Some? ==> ValidExtension(p.extension.value))
    && ValidPadding(p.padding)
  }

  function FirstByte(p: Packet): byte
    requires Valid(p)
  {
    VERSION * 64 + (if p.padding != [] then 32 else 0) + (if p.extension.Some? then 16 else 0) + |p.csrcs| / 4
  }

  function FixedHeader(first: byte, h: RtpHeader): (r: seq<byte>)
    requires InRange(h)
    ensures |r| == FIXED_HEADER_BYTES
  {
    [first, (if h.marker then 0x80 else 0) + h.payloadType] + U16(h.sequence) + U32(h.timestamp) + U32(h.ssrc)
  }

  function ExtensionBytes(extension: Option<Extension>): seq<byte>
    requires extension.Some? ==> ValidExtension(extension.value)
  {
    if extension.None? then []
    else extension.value.profile + U16(|extension.value.data| / 4) + extension.value.data
  }

  /** The packet on the wire. */
  function Build(p: Packet): seq<byte>
    requires Valid(p)
  {
    FixedHeader(FirstByte(p), p.header) + p.csrcs + ExtensionBytes(p.extension) + p.payload + p.padding
  }

  // Reading it back.

  function HasPadding(d: seq<byte>): bool
    requires |d| >= 1
  {
    d[0] / 32 % 2 == 1
  }

  function HasExtension(d: seq<byte>): bool
    requires |d| >= 1
  {
    d[0] / 16 % 2 == 1
  }

  function CsrcEnd(d: seq<byte>): nat
    requires |d| >= 1
  {
    FIXED_HEADER_BYTES + 4 * (d[0] % 16)
  }

  function HeaderEnd(d: seq<byte>): nat
    requires 1 <= |d| && CsrcEnd(d) <= |d|
    requires HasExtension(d) ==> CsrcEnd(d) + EXTENSION_HEADER_BYTES <= |d|
  {
    if HasExtension(d) then CsrcEnd(d) + EXTENSION_HEADER_BYTES + 4 * ReadU16(d, CsrcEnd(d) + 2) else CsrcEnd(d)
  }

  /** The version is 2, and every length the datagram declares fits in it. */
  predicate WellFormed(d: seq<byte>) {
    && |d| >= FIXED_HEADER_BYTES
    && d[0] / 64 == VERSION
    && CsrcEnd(d) <= |d|
    && (HasExtension(d) ==> CsrcEnd(d) + EXTENSION_HEADER_BYTES <= |d|)
    && HeaderEnd(d) <= |d|
    && (HasPadding(d) ==> HeaderEnd(d) < |d| && d[|d| - 1] != 0 && HeaderEnd(d) + d[|d| - 1] as nat <= |d|)
  }

  function PayloadEnd(d: seq<byte>): nat
    requires WellFormed(d)
  {
    if HasPadding(d) then |d| - d[|d| - 1] as nat else |d|
  }

  function HeaderOf(d: seq<byte>): RtpHeader
    requires |d| >= FIXED_HEADER_BYTES
  {
    RtpHeader(d[1] as int % 0x80, d[1] >= 0x80, ReadU16(d, 2), ReadU32(d, 4), ReadU32(d, 8))
  }

  function Parse(d: seq<byte>): Option<(RtpHeader, seq<byte>)> {
    if WellFormed(d) then Some((HeaderOf(d), d[HeaderEnd(d)..PayloadEnd(d)])) else None
  }

  /** The packet a well-formed datagram was built from. */
  function Dissect(d: seq<byte>): Packet
    requires WellFormed(d)
  {
    var at := CsrcEnd(d);
    Packet(HeaderOf(d), d[FIXED_HEADER_BYTES..at],
           if HasExtension(d) then Some(Extension(d[at..at + 2], d[at + EXTENSION_HEADER_BYTES..HeaderEnd(d)])) else None,
           d[HeaderEnd(d)..PayloadEnd(d)], d[PayloadEnd(d)..])
  }

  /** Split a datagram into its header and payload, or nothing if it is not a well-formed packet. */
  method ParseRtp(datagram: seq<byte>) returns (r: Option<(RtpHeader, seq<byte>)>)
    ensures r == Parse(datagram)
  {
    if |datagram| < FIXED_HEADER_BYTES {
      return None;
    }
    var first, second := datagram[0] as int, datagram[1] as int;
    if first / 64 != VERSION {
      return None;
    }
    var offset := FIXED_HEADER_BYTES + 4 * (first % 16);
    if |datagram| < offset {
      return None;
    }
    if first / 16 % 2 == 1 {
      if |datagram| < offset + EXTENSION_HEADER_BYTES {
        return None;
      }
      var words := ReadU16(datagram, offset + 2);
      offset := offset + EXTENSION_HEADER_BYTES + 4 * words;
      if |datagram| < offset {
        return None;
      }
    }
    var end := |datagram|;
    if first / 32 % 2 == 1 {
      var padding := if end > offset then datagram[end - 1] as int else 0;
      if padding == 0 || offset + padding > end {
        return None;
      }
      end := end - padding;
    }
    var header := RtpHeader(second % 0x80, second >= 0x80, ReadU16(datagram, 2), ReadU32(datagram, 4), ReadU32(datagram, 8));
    return Some((header, datagram[offset..end]));
  }

  lemma FirstByteFields(p: Packet)
    requires Valid(p)
    ensures var first := FirstByte(p);
            && first / 64 == VERSION && first % 16 == |p.csrcs| / 4
            && (first / 32 % 2 == 1 <==> p.padding != []) && (first / 16 % 2 == 1 <==> p.extension.Some?)
  {
  }

  lemma FixedHeaderFields(first: byte, h: RtpHeader, rest: seq<byte>)
    requires InRange(h)
    ensures var d := FixedHeader(first, h) + rest; d[0] == first && HeaderOf(d) == h
  {
    var d := FixedHeader(first, h) + rest;
    var head := [first, (if h.marker then 0x80 else 0) + h.payloadType];
    var s, t, u := U16(h.sequence), U32(h.timestamp), U32(h.ssrc);
    assert d == head + s + (t + u + rest) && d == head + s + t + (u + rest) && d == head + s + t + u + rest;
    ReadInside(head, s, t + u + rest);
    ReadInside(head + s, t, u + rest);
    ReadInside(head + s + t, u, rest);
    assert d[1] == head[1];
  }

  lemma PiecesOf(a: seq<byte>, b: seq<byte>, c: seq<byte>, d: seq<byte>, e: seq<byte>)
    ensures var whole := a + b + c + d + e;
            && whole[|a|..|a| + |b|] == b
            && whole[|a| + |b|..|a| + |b| + |c|] == c
            && whole[|a| + |b| + |c|..|a| + |b| + |c| + |d|] == d
            && whole[|a| + |b| + |c| + |d|..] == e
  {
  }

  /** Where the fields of a built packet are found. */
  lemma BuiltOffsets(p: Packet)
    requires Valid(p)
    ensures var d, ext := Build(p), ExtensionBytes(p.extension);
            && WellFormed(d) && HeaderOf(d) == p.header
            && CsrcEnd(d) == FIXED_HEADER_BYTES + |p.csrcs| && HeaderEnd(d) == CsrcEnd(d) + |ext|
            && PayloadEnd(d) == HeaderEnd(d) + |p.payload|
            && (HasExtension(d) <==> p.extension.Some?)
  {
    var d, ext := Build(p), ExtensionBytes(p.extension);
    var fixed := FixedHeader(FirstByte(p), p.header);
    FirstByteFields(p);
    Regroup(fixed, p.csrcs, ext, p.payload, p.padding);
    FixedHeaderFields(FirstByte(p), p.header, p.csrcs + ext + p.payload + p.padding);
    if p.extension.Some? {
      ExtensionFields(fixed + p.csrcs, p.extension.value, p.payload + p.padding);
    }
    assert |d| == FIXED_HEADER_BYTES + |p.csrcs| + |ext| + |p.payload| + |p.padding|;
    if p.padding != [] {
      assert d[|d| - 1] == p.padding[|p.padding| - 1];
    }
  }

  lemma ExtensionPieces(x: Extension)
    requires ValidExtension(x)
    ensures var ext := ExtensionBytes(Some(x));
            ext[0..2] == x.profile && ext[4..|ext|] == x.data
  {
  }

  /** Reading a built packet finds exactly what it was built from. */
  lemma DissectBuild(p: Packet)
    requires Valid(p)
    ensures WellFormed(Build(p)) && Dissect(Build(p)) == p
  {
    var d, ext := Build(p), ExtensionBytes(p.extension);
    BuiltOffsets(p);
    PiecesOf(FixedHeader(FirstByte(p), p.header), p.csrcs, ext, p.payload, p.padding);
    if p.extension.Some? {
      ExtensionInside(d, CsrcEnd(d), HeaderEnd(d), p.extension.value);
    }
  }

  lemma ExtensionInside(d: seq<byte>, at: nat, end: nat, x: Extension)
    requires ValidExtension(x) && at <= end <= |d| && d[at..end] == ExtensionBytes(Some(x))
    ensures at + 4 <= end && d[at..at + 2] == x.profile && d[at + 4..end] == x.data
  {
    ExtensionPieces(x);
    SliceOfSlice(d, at, end, 0, 2);
    SliceOfSlice(d, at, end, 4, end - at);
  }

  lemma SliceOfSlice(d: seq<byte>, a: nat, b: nat, i: nat, j: nat)
    requires a <= b <= |d| && i <= j <= b - a
    ensures d[a..b][i..j] == d[a + i..a + j]
  {
    var inner, direct := d[a..b][i..j], d[a + i..a + j];
    assert |inner| == |direct|;
    forall k | 0 <= k < |inner| ensures inner[k] == direct[k] {
      assert inner[k] == d[a..b][i + k] == d[a + i + k];
    }
  }

  lemma Regroup(a: seq<byte>, b: seq<byte>, c: seq<byte>, d: seq<byte>, e: seq<byte>)
    ensures a + b + c + d + e == a + (b + c + d + e)
    ensures a + b + c + d + e == a + b + (c + (d + e))
  {
  }

  lemma ExtensionFields(before: seq<byte>, x: Extension, after: seq<byte>)
    requires ValidExtension(x)
    ensures ReadU16(before + (ExtensionBytes(Some(x)) + after), |before| + 2) == |x.data| / 4
  {
    var d := before + (ExtensionBytes(Some(x)) + after);
    var words := U16(|x.data| / 4);
    assert d == before + x.profile + words + (x.data + after);
    ReadInside(before + x.profile, words, x.data + after);
  }

  lemma FixedHeaderOf(d: seq<byte>)
    requires |d| >= FIXED_HEADER_BYTES
    ensures InRange(HeaderOf(d)) && FixedHeader(d[0], HeaderOf(d)) == d[..FIXED_HEADER_BYTES]
  {
    U16OfRead(d, 2);
    U32OfRead(d, 4);
    U32OfRead(d, 8);
    assert d[..FIXED_HEADER_BYTES] == d[..2] + d[2..4] + d[4..8] + d[8..12];
  }

  lemma FirstByteOf(first: byte)
    requires first / 64 == VERSION
    ensures first == VERSION * 64 + first / 32 % 2 * 32 + first / 16 % 2 * 16 + first % 16
  {
  }

  lemma ExtensionOf(d: seq<byte>, at: nat, end: nat)
    requires at + 4 <= end <= |d| && end == at + 4 + 4 * ReadU16(d, at + 2)
    ensures var x := Extension(d[at..at + 2], d[at + 4..end]);
            ValidExtension(x) && ExtensionBytes(Some(x)) == d[at..end]
  {
    var words, data := ReadU16(d, at + 2), d[at + 4..end];
    FourTimes(words, |data|);
    U16OfRead(d, at + 2);
    ThreeSlices(d, at, at + 2, at + 4, end);
  }

  lemma FourTimes(words: nat, bytes: nat)
    requires bytes == 4 * words
    ensures bytes % 4 == 0 && bytes / 4 == words
  {
  }

  lemma ThreeSlices(d: seq<byte>, a: nat, b: nat, c: nat, e: nat)
    requires a <= b <= c <= e <= |d|
    ensures d[a..e] == d[a..b] + d[b..c] + d[c..e]
  {
  }

  lemma Slices(d: seq<byte>, a: nat, b: nat, c: nat, e: nat)
    requires a <= b <= c <= e <= |d|
    ensures d == d[..a] + d[a..b] + d[b..c] + d[c..e] + d[e..]
  {
  }

  lemma DissectIsValid(d: seq<byte>)
    requires WellFormed(d)
    ensures Valid(Dissect(d)) && FirstByte(Dissect(d)) == d[0]
  {
    FixedHeaderOf(d);
    FirstByteOf(d[0]);
    if HasExtension(d) {
      ExtensionOf(d, CsrcEnd(d), HeaderEnd(d));
    }
  }

  /** And every well-formed datagram is a packet built so. */
  lemma BuildDissect(d: seq<byte>)
    requires WellFormed(d)
    ensures Valid(Dissect(d)) && Build(Dissect(d)) == d
  {
    DissectIsValid(d);
    FixedHeaderOf(d);
    if HasExtension(d) {
      ExtensionOf(d, CsrcEnd(d), HeaderEnd(d));
    }
    assert ExtensionBytes(Dissect(d).extension) == d[CsrcEnd(d)..HeaderEnd(d)];
    Slices(d, FIXED_HEADER_BYTES, CsrcEnd(d), HeaderEnd(d), PayloadEnd(d));
  }

  /**
   `parse_rtp` inverts the whole grammar: it accepts exactly the datagrams some packet builds, and from each
   it returns the fields and payload of the one packet that builds it.
   */
  lemma ParseInvertsTheGrammar(d: seq<byte>)
    ensures Parse(d).Some? <==> exists p :: Valid(p) && Build(p) == d
    ensures forall p :: Valid(p) && Build(p) == d ==> Parse(d) == Some((p.header, p.payload))
    ensures forall p, q :: Valid(p) && Valid(q) && Build(p) == d && Build(q) == d ==> p == q
  {
    forall p | Valid(p) && Build(p) == d ensures WellFormed(d) && Dissect(d) == p {
      DissectBuild(p);
    }
    if WellFormed(d) {
      BuildDissect(d);
    }
  }

  /** One packet with a fixed header only; nothing when a field does not fit its width. */
  function Pack(h: RtpHeader, payload: seq<byte>): Option<seq<byte>> {
    if InRange(h) then Some(FixedHeader(VERSION * 64, h) + payload) else None
  }

  /** Packing fits exactly the fields in range, and parsing undoes it. */
  lemma ParseUndoesPack(h: RtpHeader, payload: seq<byte>)
    ensures Pack(h, payload).Some? <==> InRange(h)
    ensures InRange(h) ==> Parse(Pack(h, payload).value) == Some((h, payload))
  {
    if InRange(h) {
      var p := Packet(h, [], None, payload, []);
      assert Build(p) == FixedHeader(FirstByte(p), h) + payload;
      DissectBuild(p);
    }
  }

  class RtpSender {
    const ssrc: int
    const payloadType: int
    const samplesPerFrame: int
    var sequence: int
    var timestamp: int

    ghost function Next(marker: bool): RtpHeader
      reads this
    {
      RtpHeader(payloadType, marker, sequence, timestamp, ssrc)
    }

    constructor (ssrc: int, payloadType: int, samplesPerFrame: int, firstSequence: int, firstTimestamp: int)
      ensures this.samplesPerFrame == samplesPerFrame
      ensures Next(false) == RtpHeader(payloadType, false, firstSequence, firstTimestamp, ssrc)
    {
      this.ssrc, this.payloadType, this.samplesPerFrame := ssrc, payloadType, samplesPerFrame;
      sequence, timestamp := firstSequence, firstTimestamp;
    }

    /** The stream's next packet; a field that does not fit raises, and leaves the stream where it was. */
    method NextPacket(payload: seq<byte>, marker: bool) returns (datagram: Option<seq<byte>>)
      modifies this
      ensures datagram == Pack(old(Next(marker)), payload)
      ensures Next(marker) == Advanced(old(Next(marker)), samplesPerFrame)
    {
      datagram := Pack(RtpHeader(payloadType, marker, sequence, timestamp, ssrc), payload);
      if datagram.None? {
        return;
      }
      sequence := (sequence + 1) % WORD;
      timestamp := (timestamp + samplesPerFrame) % LONG;
    }
  }

  /** Where the stream stands after one packet. */
  function Advanced(h: RtpHeader, samples: int): RtpHeader {
    if InRange(h) then h.(sequence := (h.sequence + 1) % WORD, timestamp := (h.timestamp + samples) % LONG) else h
  }

  function AdvancedBy(h: RtpHeader, samples: int, n: nat): RtpHeader {
    if n == 0 then h else Advanced(AdvancedBy(h, samples, n - 1), samples)
  }

  lemma WrapAgain(x: int, y: int, m: nat)
    requires m > 0
    ensures (x % m + y) % m == (x + y) % m
  {
    var q := x / m;
    assert x == q * m + x % m;
    ModOfMultiple(x % m + y, q, m);
    assert x + y == x % m + y + q * m;
  }

  lemma ModOfMultiple(r: int, q: int, m: nat)
    requires m > 0
    ensures (r + q * m) % m == r % m
  {
    var k := r / m;
    assert r + q * m == (k + q) * m + r % m;
    DivModUnique(r + q * m, k + q, r % m, m);
  }

  lemma DivModUnique(x: int, q: int, r: int, m: nat)
    requires 0 <= r < m && x == q * m + r
    ensures x % m == r
  {
    MultipleBounds(x / m - q, m);
    assert (x / m - q) * m + x % m == r;
  }

  lemma MultipleBounds(d: int, m: nat)
    ensures d >= 1 ==> d * m >= m
    ensures d <= -1 ==> d * m + m <= 0
  {
  }

  /** From any start that fits, packet `n` counts on from the first, and no packet ever fails to fit. */
  lemma {:induction false} SenderLaw(h: RtpHeader, samples: int, n: nat)
    requires InRange(h)
    ensures AdvancedBy(h, samples, n) == Counted(h, samples, n) && InRange(Counted(h, samples, n))
  {
    if n > 0 {
      SenderLaw(h, samples, n - 1);
      SenderStep(h, samples, n);
    }
  }

  /** The header `n` packets on: sequence and timestamp counted from the first, round their fields. */
  function Counted(h: RtpHeader, samples: int, n: nat): RtpHeader {
    h.(sequence := (h.sequence + n) % WORD, timestamp := (h.timestamp + n * samples) % LONG)
  }

  lemma SenderStep(h: RtpHeader, samples: int, n: nat)
    requires InRange(h) && n > 0
    ensures Advanced(Counted(h, samples, n - 1), samples) == Counted(h, samples, n)
  {
    TimestampStep(h.timestamp, samples, n);
    WrapAgain(h.sequence + n - 1, 1, WORD);
  }

  lemma TimestampStep(t: int, samples: int, n: nat)
    requires n > 0
    ensures ((t + (n - 1) * samples) % LONG + samples) % LONG == (t + n * samples) % LONG
  {
    WrapAgain(t + (n - 1) * samples, samples, LONG);
    assert t + (n - 1) * samples + samples == t + n * samples;
  }

  /** A start that does not fit fails every packet, for good. */
  lemma {:induction false} BadStartNeverRecovers(h: RtpHeader, samples: int, n: nat)
    requires !InRange(h)
    ensures AdvancedBy(h, samples, n) == h
  {
    if n > 0 {
      BadStartNeverRecovers(h, samples, n - 1);
    }
  }

  /** The analyser's count of gaps in received sequence numbers. */
  function Gaps(sequences: seq<int>): nat {
    if |sequences| < 2 then 0
    else (if (sequences[1] - sequences[0]) % WORD != 1 then 1 else 0) + Gaps(sequences[1..])
  }

  predicate Sequence(s: int) {
    0 <= s < WORD
  }

  lemma NextInSequence(a: int, b: int)
    requires Sequence(a) && Sequence(b)
    ensures (b - a) % WORD == 1 <==> b == (a + 1) % WORD
  {
  }

  /** The sender's law: one more each, round the field, from `first`. */
  predicate FollowsFrom(sequences: seq<int>, first: int) {
    forall i :: 0 <= i < |sequences| ==> sequences[i] == (first + i) % WORD
  }

  lemma FollowsOn(sequences: seq<int>, first: int)
    requires sequences != []
    ensures FollowsFrom(sequences, first) <==> sequences[0] == first % WORD && FollowsFrom(sequences[1..], first + 1)
  {
    if sequences[0] == first % WORD && FollowsFrom(sequences[1..], first + 1) {
      forall i | 0 < i < |sequences| ensures sequences[i] == (first + i) % WORD {
        assert sequences[i] == sequences[1..][i - 1] == (first + 1 + (i - 1)) % WORD;
      }
    }
  }

  lemma FollowsRound(sequences: seq<int>, first: int)
    ensures FollowsFrom(sequences, first % WORD) <==> FollowsFrom(sequences, first)
  {
    forall i | 0 <= i < |sequences|
      ensures sequences[i] == (first % WORD + i) % WORD <==> sequences[i] == (first + i) % WORD
    {
      WrapAgain(first, i, WORD);
    }
  }

  /** No gaps are counted exactly when the numbers follow the sender's law. */
  lemma {:induction false} NoGapsIff(sequences: seq<int>)
    requires forall i :: 0 <= i < |sequences| ==> Sequence(sequences[i])
    ensures Gaps(sequences) == 0 <==> (sequences == [] || FollowsFrom(sequences, sequences[0]))
    decreases |sequences|
  {
    if |sequences| >= 2 {
      var first, rest := sequences[0], sequences[1..];
      NextInSequence(first, sequences[1]);
      NoGapsIff(rest);
      FollowsOn(sequences, first);
      FollowsOn(rest, first + 1);
      FollowsRound(rest, first + 1);
    }
  }

  /** The first two bytes of the layout of section 5.1 of RFC 3550: version 2, padding, extension, the CSRC count; */
  predicate FirstLaidOut(p: Packet, b: byte) {
    var t := Bits(b);
    && t[0] == 1 && t[1] == 0 && (t[2] == 1 <==> p.padding != []) && (t[3] == 1 <==> p.extension.Some?)
    && |p.csrcs| == 4 * (8 * t[4] + 4 * t[5] + 2 * t[6] + t[7])
  }

  /** the marker and the payload type. */
  predicate SecondLaidOut(h: RtpHeader, b: byte) {
    var u := Bits(b);
    && (u[0] == 1 <==> h.marker)
    && h.payloadType == 64 * u[1] + 32 * u[2] + 16 * u[3] + 8 * u[4] + 4 * u[5] + 2 * u[6] + u[7]
  }

  /** The whole fixed header, whose other fields are in network byte order. */
  predicate LaidOut(p: Packet, d: seq<byte>) {
    && |d| >= 12 && FirstLaidOut(p, d[0]) && SecondLaidOut(p.header, d[1])
    && p.header.sequence == BigEndian(d[2..4]) && p.header.timestamp == BigEndian(d[4..8])
    && p.header.ssrc == BigEndian(d[8..12])
  }

  lemma FirstByteLaidOut(p: Packet)
    requires Valid(p)
    ensures FirstLaidOut(p, FirstByte(p))
  {
    BitsSpell(FirstByte(p));
  }

  lemma SecondByteLaidOut(h: RtpHeader)
    requires InRange(h)
    ensures SecondLaidOut(h, (if h.marker then 0x80 else 0) + h.payloadType)
  {
    BitsSpell((if h.marker then 0x80 else 0) + h.payloadType);
  }

  /** Every packet is built so, and so every datagram accepted is laid out so. */
  lemma PacketsAreLaidOut(p: Packet)
    requires Valid(p)
    ensures LaidOut(p, Build(p))
    ensures Build(p)[12..] == p.csrcs + ExtensionBytes(p.extension) + p.payload + p.padding
  {
    var h, d := p.header, Build(p);
    var fixed, rest := FixedHeader(FirstByte(p), h), p.csrcs + ExtensionBytes(p.extension) + p.payload + p.padding;
    assert d == fixed + rest;
    HeaderFieldsAt(FirstByte(p), h, d);
    FirstByteLaidOut(p);
    SecondByteLaidOut(h);
    WrittenBigEndian(h.sequence);
    WrittenBigEndian(h.timestamp);
    WrittenBigEndian(h.ssrc);
  }

  /** Section 5.3.1: two bytes of profile, a count of words, and that many. */
  lemma ExtensionsAreLaidOut(x: Extension)
    requires ValidExtension(x)
    ensures var d := ExtensionBytes(Some(x));
      |d| >= 4 && d[..2] == x.profile && d[4..] == x.data && |x.data| == 4 * BigEndian(d[2..4])
  {
    var d, words := ExtensionBytes(Some(x)), |x.data| / 4;
    WrittenBigEndian(words);
    assert d[2..4] == U16(words);
  }

  lemma HeaderFieldsAt(first: byte, h: RtpHeader, d: seq<byte>)
    requires InRange(h) && FixedHeader(first, h) <= d
    ensures d[0] == first && d[1] == (if h.marker then 0x80 else 0) + h.payloadType
    ensures d[2..4] == U16(h.sequence) && d[4..8] == U32(h.timestamp) && d[8..12] == U32(h.ssrc)
  {
    var fixed := FixedHeader(first, h);
    assert d == fixed + d[12..];
    assert fixed[2..4] == U16(h.sequence) && fixed[4..8] == U32(h.timestamp) && fixed[8..12] == U32(h.ssrc);
  }

  /** Each number that does not follow on from the one before it adds one to the count, and no other does. */
  lemma {:induction false} EachGapCounts(sequences: seq<int>, next: int)
    requires (forall i :: 0 <= i < |sequences| ==> Sequence(sequences[i])) && Sequence(next)
    ensures Gaps(sequences + [next])
         == Gaps(sequences) + if sequences != [] && next != (sequences[|sequences| - 1] + 1) % WORD then 1 else 0
    decreases |sequences|
  {
    var more := sequences + [next];
    if |sequences| == 1 {
      NextInSequence(sequences[0], next);
      assert more[1..] == [next];
    } else if |sequences| > 1 {
      assert more[1..] == sequences[1..] + [next];
      EachGapCounts(sequences[1..], next);
    }
  }
}

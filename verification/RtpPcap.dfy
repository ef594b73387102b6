/**
 The capture files the caller's media is played from: each payload in RTP over UDP over IPv4 over Ethernet,
 one record a packet. A reader that strips the layers off gets every payload back, numbered and timed.
 */
module RtpPcap {
  import opened Sequences
  import opened Wire
  import opened Checksum
  import opened RtpPacket

  const MAGIC_MICROSECONDS := 0xA1B2_C3D4
  const LINKTYPE_ETHERNET := 1
  const ETHERTYPE_IPV4 := 0x0800
  const IP_PROTOCOL_UDP := 17
  const PCMA := 8
  const SOURCE: seq<byte> := [127, 0, 0, 1]
  const DESTINATION: seq<byte> := [127, 0, 0, 2]
  const MEDIA_PORT := 6000
  const SSRC := 0x1234_5678
  const SNAPLEN := 0xFFFF
  const SECOND := 1_000_000

  const FILE_HEADER_BYTES := 24
  const RECORD_HEADER_BYTES := 16
  const ETHERNET_BYTES := 14
  const IPV4_BYTES := 20
  const UDP_BYTES := 8

  function FileHeader(): (r: seq<byte>)
    ensures |r| == FILE_HEADER_BYTES
  {
    U32(MAGIC_MICROSECONDS) + U16(2) + U16(4) + U32(0) + U32(0) + U32(SNAPLEN) + U32(LINKTYPE_ETHERNET)
  }

  function EthernetHeader(): (r: seq<byte>)
    ensures |r| == ETHERNET_BYTES
  {
    Repeat<byte>(0, 12) + U16(ETHERTYPE_IPV4)
  }

  /** The IPv4 header's words before and after its checksum. */
  function BeforeChecksum(payloadLength: nat, identification: nat): (r: seq<byte>)
    requires IPV4_BYTES + payloadLength < WORD && identification < WORD
    ensures |r| == 10
  {
    [0x45, 0] + U16(IPV4_BYTES + payloadLength) + U16(identification) + U16(0) + [64, IP_PROTOCOL_UDP]
  }

  function Ipv4Header(payloadLength: nat, identification: nat): (r: seq<byte>)
    requires IPV4_BYTES + payloadLength < WORD && identification < WORD
    ensures |r| == IPV4_BYTES
  {
    var before, after := BeforeChecksum(payloadLength, identification), SOURCE + DESTINATION;
    before + U16(Checksum.Checksum(before + U16(0) + after)) + after
  }

  /** Every IPv4 header written verifies: its checksum over the whole header is 0. */
  lemma Ipv4HeaderVerifies(payloadLength: nat, identification: nat)
    requires IPV4_BYTES + payloadLength < WORD && identification < WORD
    ensures Checksum.Checksum(Ipv4Header(payloadLength, identification)) == 0
         == RfcChecksum(Ipv4Header(payloadLength, identification))
  {
    ChecksumVerifies(BeforeChecksum(payloadLength, identification), SOURCE + DESTINATION);
    TwoFoldsAreTheRfcChecksum(Ipv4Header(payloadLength, identification));
  }

  function UdpHeader(length: nat): (r: seq<byte>)
    requires UDP_BYTES + length < WORD
    ensures |r| == UDP_BYTES
  {
    U16(MEDIA_PORT) + U16(MEDIA_PORT) + U16(UDP_BYTES + length) + U16(0)
  }

  function UdpDatagram(payload: seq<byte>): seq<byte>
    requires UDP_BYTES + |payload| < WORD
  {
    UdpHeader(|payload|) + payload
  }

  /** The RTP header of packet `index`. */
  function HeaderAt(index: nat, samples: int): RtpHeader {
    RtpHeader(PCMA, false, index % WORD, index * samples % LONG, SSRC)
  }

  function Rtp(index: nat, samples: int, payload: seq<byte>): seq<byte> {
    FixedHeader(0x80, HeaderAt(index, samples)) + payload
  }

  /** Whether packet `index` has a length and a capture time its headers can hold. */
  predicate Fits(index: nat, ptime: int, payload: seq<byte>) {
    && IPV4_BYTES + UDP_BYTES + FIXED_HEADER_BYTES + |payload| < WORD
    && 0 <= index * ptime * 1000 / SECOND < LONG
  }

  function Frame(index: nat, samples: int, payload: seq<byte>): (r: seq<byte>)
    requires IPV4_BYTES + UDP_BYTES + FIXED_HEADER_BYTES + |payload| < WORD
    ensures |r| < LONG
  {
    var datagram := UdpDatagram(Rtp(index, samples, payload));
    EthernetHeader() + Ipv4Header(|datagram|, index % WORD) + datagram
  }

  function Record(index: nat, ptime: int, samples: int, payload: seq<byte>): seq<byte>
    requires Fits(index, ptime, payload)
  {
    var frame := Frame(index, samples, payload);
    RecordHeader(index * ptime * 1000, |frame|) + frame
  }

  function RecordHeader(microseconds: int, length: nat): (r: seq<byte>)
    requires 0 <= microseconds / SECOND < LONG && length < LONG
  {
    U32(microseconds / SECOND) + U32(microseconds % SECOND) + U32(length) + U32(length)
  }

  predicate AllFit(ptime: int, payloads: seq<seq<byte>>) {
    forall i :: 0 <= i < |payloads| ==> Fits(i, ptime, payloads[i])
  }

  lemma FewerFit(ptime: int, payloads: seq<seq<byte>>)
    requires payloads != [] && AllFit(ptime, payloads)
    ensures AllFit(ptime, payloads[..|payloads| - 1]) && Fits(|payloads| - 1, ptime, payloads[|payloads| - 1])
  {
  }

  /** The file's records, one a payload. */
  function Records(ptime: int, samples: int, payloads: seq<seq<byte>>): seq<byte>
    requires AllFit(ptime, payloads)
  {
    if payloads == [] then []
    else
      FewerFit(ptime, payloads);
      Records(ptime, samples, payloads[..|payloads| - 1])
      + Record(|payloads| - 1, ptime, samples, payloads[|payloads| - 1])
  }

  function PcapFile(ptime: int, samples: int, payloads: seq<seq<byte>>): seq<byte>
    requires AllFit(ptime, payloads)
  {
    FileHeader() + Records(ptime, samples, payloads)
  }

  lemma OneMore(ptime: int, samples: int, payloads: seq<seq<byte>>, n: nat)
    requires n < |payloads| && AllFit(ptime, payloads[..n]) && Fits(n, ptime, payloads[n])
    ensures AllFit(ptime, payloads[..n + 1])
    ensures var frame := Frame(n, samples, payloads[n]);
            PcapFile(ptime, samples, payloads[..n + 1])
            == PcapFile(ptime, samples, payloads[..n]) + RecordHeader(n * ptime * 1000, |frame|) + frame
  {
    var before, all, frame := payloads[..n], payloads[..n + 1], Frame(n, samples, payloads[n]);
    assert all[..n] == before;
    forall i | 0 <= i < |all| ensures Fits(i, ptime, all[i]) {
      assert i < n ==> all[i] == before[i];
    }
    Associative(FileHeader(), Records(ptime, samples, before), Record(n, ptime, samples, payloads[n]));
    Associative(PcapFile(ptime, samples, before), RecordHeader(n * ptime * 1000, |frame|), frame);
  }

  /** Writes one record a payload. A packet that does not fit raises, with what came before it written. */
  method WriteRtpPcap(payloads: seq<seq<byte>>, ptime: int, samples: int)
    returns (file: seq<byte>, count: nat, raised: bool)
    ensures count <= |payloads| && AllFit(ptime, payloads[..count])
    ensures file == PcapFile(ptime, samples, payloads[..count])
    ensures if raised then count < |payloads| && !Fits(count, ptime, payloads[count]) else count == |payloads|
  {
    file, count, raised := FileHeader(), 0, false;
    assert payloads[..0] == [];
    while count < |payloads|
      invariant count <= |payloads| && AllFit(ptime, payloads[..count])
      invariant file == PcapFile(ptime, samples, payloads[..count])
    {
      var payload := payloads[count];
      var microseconds := count * ptime * 1000;
      if IPV4_BYTES + UDP_BYTES + FIXED_HEADER_BYTES + |payload| >= WORD
         || microseconds / SECOND < 0 || microseconds / SECOND >= LONG {
        return file, count, true;
      }
      OneMore(ptime, samples, payloads, count);
      var frame := Frame(count, samples, payload);
      file := file + RecordHeader(microseconds, |frame|);
      file := file + frame;
      count := count + 1;
    }
  }

  // A reader that knows the formats and nothing of the writer.

  datatype Captured = Captured(seconds: nat, microseconds: nat, frame: seq<byte>)

  function ReadRecords(bytes: seq<byte>): Option<seq<Captured>>
    decreases |bytes|
  {
    if bytes == [] then Some([])
    else if |bytes| < RECORD_HEADER_BYTES then None
    else
      var end := RECORD_HEADER_BYTES + ReadU32(bytes, 8);
      if ReadU32(bytes, 8) != ReadU32(bytes, 12) || |bytes| < end then None
      else
        var rest := ReadRecords(bytes[end..]);
        if rest.None? then None
        else Some([Captured(ReadU32(bytes, 0), ReadU32(bytes, 4), bytes[RECORD_HEADER_BYTES..end])] + rest.value)
  }

  function ReadPcap(file: seq<byte>): Option<seq<Captured>> {
    if |file| < FILE_HEADER_BYTES || ReadU32(file, 0) != MAGIC_MICROSECONDS || ReadU32(file, 20) != LINKTYPE_ETHERNET
    then None
    else ReadRecords(file[FILE_HEADER_BYTES..])
  }

  /** The UDP payload of an Ethernet frame, if every layer is what it should be and the lengths agree. */
  function Unwrap(frame: seq<byte>): Option<seq<byte>> {
    if |frame| < ETHERNET_BYTES + IPV4_BYTES + UDP_BYTES then None
    else if ReadU16(frame, 12) != ETHERTYPE_IPV4 || frame[14] != 0x45 || frame[23] != IP_PROTOCOL_UDP then None
    else if Checksum.Checksum(frame[ETHERNET_BYTES..ETHERNET_BYTES + IPV4_BYTES]) != 0 then None
    else if ReadU16(frame, 16) != |frame| - ETHERNET_BYTES then None
    else if ReadU16(frame, 38) != |frame| - ETHERNET_BYTES - IPV4_BYTES then None
    else Some(frame[ETHERNET_BYTES + IPV4_BYTES + UDP_BYTES..])
  }

  /** What unwrapping relies on, for any payload carried under these headers. */
  lemma UnwrapLayers(ip: seq<byte>, udp: seq<byte>, payload: seq<byte>)
    requires |ip| == IPV4_BYTES && |udp| == UDP_BYTES
    ensures var frame := EthernetHeader() + ip + (udp + payload);
            && |frame| == ETHERNET_BYTES + IPV4_BYTES + UDP_BYTES + |payload|
            && ReadU16(frame, 12) == ETHERTYPE_IPV4
            && frame[14] == ip[0] && frame[23] == ip[9]
            && frame[ETHERNET_BYTES..ETHERNET_BYTES + IPV4_BYTES] == ip
            && ReadU16(frame, 16) == ReadU16(ip, 2)
            && ReadU16(frame, 38) == ReadU16(udp, 4)
            && frame[ETHERNET_BYTES + IPV4_BYTES + UDP_BYTES..] == payload
  {
    var frame := EthernetHeader() + ip + (udp + payload);
    assert forall i :: 0 <= i < ETHERNET_BYTES ==> frame[i] == EthernetHeader()[i];
    assert forall i :: 0 <= i < IPV4_BYTES ==> frame[ETHERNET_BYTES + i] == ip[i];
    assert forall i :: 0 <= i < UDP_BYTES ==> frame[ETHERNET_BYTES + IPV4_BYTES + i] == udp[i];
  }

  /** Stripping a written frame's layers gives back the RTP packet inside. */
  lemma UnwrapFrame(index: nat, samples: int, payload: seq<byte>)
    requires IPV4_BYTES + UDP_BYTES + FIXED_HEADER_BYTES + |payload| < WORD
    ensures Unwrap(Frame(index, samples, payload)) == Some(Rtp(index, samples, payload))
  {
    var rtp := Rtp(index, samples, payload);
    var datagram := UdpDatagram(rtp);
    var ip := Ipv4Header(|datagram|, index % WORD);
    var udp := UdpHeader(|rtp|);
    assert datagram == udp + rtp;
    UnwrapLayers(ip, udp, rtp);
    Ipv4HeaderVerifies(|datagram|, index % WORD);
    assert ip[2..4] == U16(IPV4_BYTES + |datagram|) && udp[4..6] == U16(UDP_BYTES + |rtp|);
  }

  lemma ParseRtpInside(index: nat, samples: int, payload: seq<byte>)
    ensures Parse(Rtp(index, samples, payload)) == Some((HeaderAt(index, samples), payload))
  {
    ParseUndoesPack(HeaderAt(index, samples), payload);
  }

  /** What reading on from a place gives, with `before` read already. */
  function ReadAfter(before: seq<Captured>, bytes: seq<byte>): Option<seq<Captured>> {
    if ReadRecords(bytes).None? then None else Some(before + ReadRecords(bytes).value)
  }

  lemma FieldAt(bytes: seq<byte>, at: nat, v: nat)
    requires v < LONG && at + 4 <= |bytes| && bytes[at..at + 4] == U32(v)
    ensures ReadU32(bytes, at) == v
  {
    var field := bytes[at..at + 4];
    assert field[0] == bytes[at] && field[1] == bytes[at + 1] && field[2] == bytes[at + 2] && field[3] == bytes[at + 3];
  }

  lemma ReadRecord(seconds: nat, microseconds: nat, frame: seq<byte>, after: seq<byte>)
    requires seconds < LONG && microseconds < LONG && |frame| < LONG
    ensures ReadRecords(U32(seconds) + U32(microseconds) + U32(|frame|) + U32(|frame|) + frame + after)
         == ReadAfter([Captured(seconds, microseconds, frame)], after)
  {
    var length := U32(|frame|);
    var bytes := U32(seconds) + U32(microseconds) + length + length + frame + after;
    assert bytes[0..4] == U32(seconds) && bytes[4..8] == U32(microseconds);
    assert bytes[8..12] == length && bytes[12..16] == length;
    FieldAt(bytes, 0, seconds);
    FieldAt(bytes, 4, microseconds);
    FieldAt(bytes, 8, |frame|);
    FieldAt(bytes, 12, |frame|);
    assert bytes[16..16 + |frame|] == frame && bytes[16 + |frame|..] == after;
  }

  function CapturedAt(index: nat, ptime: int, samples: int, payload: seq<byte>): Captured
    requires Fits(index, ptime, payload)
  {
    Captured(index * ptime * 1000 / SECOND, index * ptime * 1000 % SECOND, Frame(index, samples, payload))
  }

  function AllCaptured(ptime: int, samples: int, payloads: seq<seq<byte>>): (r: seq<Captured>)
    requires AllFit(ptime, payloads)
    ensures |r| == |payloads|
  {
    seq(|payloads|, i requires 0 <= i < |payloads| =>
      assert Fits(i, ptime, payloads[i]); CapturedAt(i, ptime, samples, payloads[i]))
  }

  lemma {:induction false} ReadAllRecords(ptime: int, samples: int, payloads: seq<seq<byte>>, after: seq<byte>)
    requires AllFit(ptime, payloads)
    ensures ReadRecords(Records(ptime, samples, payloads) + after)
         == ReadAfter(AllCaptured(ptime, samples, payloads), after)
    decreases |payloads|
  {
    if payloads == [] {
      assert Records(ptime, samples, payloads) + after == after;
      assert AllCaptured(ptime, samples, payloads) == [];
      if ReadRecords(after).Some? {
        assert [] + ReadRecords(after).value == ReadRecords(after).value;
      }
    } else {
      var n := |payloads| - 1;
      var init, last := payloads[..n], payloads[n];
      CapturedSnoc(ptime, samples, payloads);
      var record, captured := Record(n, ptime, samples, last), CapturedAt(n, ptime, samples, last);
      Associative(Records(ptime, samples, init), record, after);
      ReadAllRecords(ptime, samples, init, record + after);
      assert record == RecordHeader(n * ptime * 1000, |captured.frame|) + captured.frame;
      ReadRecord(captured.seconds, captured.microseconds, captured.frame, after);
      ReadTwice(AllCaptured(ptime, samples, init), captured, record + after, after);
    }
  }

  lemma ReadTwice(before: seq<Captured>, captured: Captured, bytes: seq<byte>, after: seq<byte>)
    requires ReadRecords(bytes) == ReadAfter([captured], after)
    ensures ReadAfter(before, bytes) == ReadAfter(before + [captured], after)
  {
    if ReadRecords(after).Some? {
      Associative(before, [captured], ReadRecords(after).value);
    }
  }

  lemma CapturedSnoc(ptime: int, samples: int, payloads: seq<seq<byte>>)
    requires payloads != [] && AllFit(ptime, payloads)
    ensures AllFit(ptime, payloads[..|payloads| - 1]) && Fits(|payloads| - 1, ptime, payloads[|payloads| - 1])
    ensures AllCaptured(ptime, samples, payloads)
         == AllCaptured(ptime, samples, payloads[..|payloads| - 1])
            + [CapturedAt(|payloads| - 1, ptime, samples, payloads[|payloads| - 1])]
  {
    FewerFit(ptime, payloads);
  }

  lemma FileReadsBack(ptime: int, samples: int, payloads: seq<seq<byte>>)
    requires AllFit(ptime, payloads)
    ensures ReadPcap(PcapFile(ptime, samples, payloads)) == Some(AllCaptured(ptime, samples, payloads))
  {
    var records := Records(ptime, samples, payloads);
    var file := FileHeader() + records;
    assert records + [] == records;
    ReadAllRecords(ptime, samples, payloads, []);
    assert AllCaptured(ptime, samples, payloads) + [] == AllCaptured(ptime, samples, payloads);
    FileHeaderFields(records);
    assert file[FILE_HEADER_BYTES..] == records;
  }

  /**
   For every list that fits, a reader of the file gets one frame a payload, in order; unwrapped and parsed, frame
   `i` gives payload `i` back, numbered `i` and timed `i * samples` round their fields, and captured `i` packet
   times after the first.
   */
  lemma PcapRoundTrip(ptime: int, samples: int, payloads: seq<seq<byte>>, i: nat)
    requires AllFit(ptime, payloads) && i < |payloads|
    ensures ReadPcap(PcapFile(ptime, samples, payloads)) == Some(AllCaptured(ptime, samples, payloads))
    ensures var captured := AllCaptured(ptime, samples, payloads)[i];
            && Unwrap(captured.frame).Some?
            && Parse(Unwrap(captured.frame).value)
               == Some((RtpHeader(PCMA, false, i % WORD, i * samples % LONG, SSRC), payloads[i]))
            && captured.seconds * SECOND + captured.microseconds == i * ptime * 1000
  {
    FileReadsBack(ptime, samples, payloads);
    assert Fits(i, ptime, payloads[i]);
    UnwrapFrame(i, samples, payloads[i]);
    ParseRtpInside(i, samples, payloads[i]);
  }

  lemma FileHeaderFields(records: seq<byte>)
    ensures var file := FileHeader() + records;
            ReadU32(file, 0) == MAGIC_MICROSECONDS && ReadU32(file, 20) == LINKTYPE_ETHERNET
  {
    var file := FileHeader() + records;
    assert file[0..4] == U32(MAGIC_MICROSECONDS) && file[20..24] == U32(LINKTYPE_ETHERNET);
    FieldAt(file, 0, MAGIC_MICROSECONDS);
    FieldAt(file, 20, LINKTYPE_ETHERNET);
  }

  /** The sequence number of the RTP packet a reader finds in a record, if there is one. */
  function SequenceOf(captured: Captured): Option<int> {
    var rtp := Unwrap(captured.frame);
    if rtp.None? || Parse(rtp.value).None? then None else Some(Parse(rtp.value).value.0.sequence)
  }

  /** The sequence numbers read from a file's records, as the analyser gathers them. */
  function SequencesOf(records: seq<Captured>): seq<int> {
    if records == [] then []
    else
      var n := |records| - 1;
      SequencesOf(records[..n]) + if SequenceOf(records[n]).Some? then [SequenceOf(records[n]).value] else []
  }

  lemma SequenceAt(index: nat, ptime: int, samples: int, payload: seq<byte>)
    requires Fits(index, ptime, payload)
    ensures SequenceOf(CapturedAt(index, ptime, samples, payload)) == Some(index % WORD)
  {
    UnwrapFrame(index, samples, payload);
    ParseRtpInside(index, samples, payload);
  }

  /** The sequence numbers of the first `n` packets sent. */
  function Numbers(n: nat): (r: seq<int>)
    ensures |r| == n && forall i :: 0 <= i < n ==> r[i] == i % WORD
  {
    seq(n, i => i % WORD)
  }

  lemma {:induction false} SequencesRead(records: seq<Captured>)
    requires forall i :: 0 <= i < |records| ==> SequenceOf(records[i]) == Some(i % WORD)
    ensures SequencesOf(records) == Numbers(|records|)
  {
    if records != [] {
      var n := |records| - 1;
      SequencesRead(records[..n]);
      assert Numbers(n + 1) == Numbers(n) + [n % WORD];
    }
  }

  lemma NumbersHaveNoGaps(n: nat)
    ensures Gaps(Numbers(n)) == 0
  {
    NoGapsIff(Numbers(n));
  }

  /** What a reader of a file finds: every packet's sequence number, and no gaps among them. */
  predicate NoneMissing(records: seq<Captured>, n: nat) {
    |SequencesOf(records)| == n && Gaps(SequencesOf(records)) == 0
  }

  /** A written file, read back, has a sequence number for every payload and counts no gaps. */
  lemma WrittenSequencesHaveNoGaps(ptime: int, samples: int, payloads: seq<seq<byte>>)
    requires AllFit(ptime, payloads)
    ensures var records := ReadPcap(PcapFile(ptime, samples, payloads));
            records.Some? && NoneMissing(records.value, |payloads|)
  {
    var records := AllCaptured(ptime, samples, payloads);
    FileReadsBack(ptime, samples, payloads);
    forall i | 0 <= i < |records| ensures SequenceOf(records[i]) == Some(i % WORD) {
      assert Fits(i, ptime, payloads[i]);
      SequenceAt(i, ptime, samples, payloads[i]);
    }
    SequencesRead(records);
    NumbersHaveNoGaps(|records|);
  }

  /** The capture's header: big-endian, microseconds, version 2.4, no zone or accuracy, the whole packet, Ethernet. */
  lemma CaptureHeader()
    ensures FileHeader() == [0xA1, 0xB2, 0xC3, 0xD4, 0, 2, 0, 4, 0, 0, 0, 0, 0, 0, 0, 0, 0, 0, 0xFF, 0xFF, 0, 0, 0, 1]
  {
    assert U32(MAGIC_MICROSECONDS) == [0xA1, 0xB2, 0xC3, 0xD4];
    assert U32(0) == [0, 0, 0, 0] && U32(SNAPLEN) == [0, 0, 0xFF, 0xFF] && U32(LINKTYPE_ETHERNET) == [0, 0, 0, 1];
  }

  /** A frame's layers: no addresses and the IPv4 type, the IPv4 header, the UDP header, the RTP packet. */
  lemma FrameLayers(index: nat, samples: int, payload: seq<byte>)
    requires IPV4_BYTES + UDP_BYTES + FIXED_HEADER_BYTES + |payload| < WORD
    ensures var length := 12 + |payload|;
      Frame(index, samples, payload)
      == Repeat<byte>(0, 12) + [0x08, 0x00] + Ipv4Header(8 + length, index % 0x1_0000)
         + (UdpHeader(length) + Rtp(index, samples, payload))
  {
    assert U16(ETHERTYPE_IPV4) == [0x08, 0x00];
  }

  /** Port 6000 both ways, the length with the header, and no checksum. */
  lemma UdpFields(length: nat)
    requires UDP_BYTES + length < WORD
    ensures var udp := UdpHeader(length);
      && BigEndian(udp[0..2]) == 6000 == BigEndian(udp[2..4]) && BigEndian(udp[4..6]) == 8 + length && udp[6..8] == [0, 0]
  {
    var udp := UdpHeader(length);
    WrittenBigEndian(MEDIA_PORT);
    WrittenBigEndian(UDP_BYTES + length);
    assert udp[0..2] == U16(MEDIA_PORT) && udp[2..4] == U16(MEDIA_PORT) && udp[4..6] == U16(UDP_BYTES + length);
    assert udp[6..8] == U16(0) == [0, 0];
  }

  /** Version 4, five words of header, the whole length, 64 hops of UDP from 127.0.0.1 to 127.0.0.2. */
  lemma IpFields(payloadLength: nat, identification: nat)
    requires IPV4_BYTES + payloadLength < WORD && identification < WORD
    ensures var ip := Ipv4Header(payloadLength, identification);
      && ip[0] == 0x45 && ip[1] == 0 && ip[6..8] == [0, 0] && ip[8] == 64 && ip[9] == 17
      && BigEndian(ip[2..4]) == 20 + payloadLength && BigEndian(ip[4..6]) == identification
      && ip[12..16] == [127, 0, 0, 1] && ip[16..20] == [127, 0, 0, 2]
  {
    var ip, before := Ipv4Header(payloadLength, identification), BeforeChecksum(payloadLength, identification);
    WrittenBigEndian(IPV4_BYTES + payloadLength);
    WrittenBigEndian(identification);
    assert before[2..4] == U16(IPV4_BYTES + payloadLength) && before[4..6] == U16(identification) && before[6..8] == U16(0);
    assert ip[..10] == before;
    assert ip[2..4] == before[2..4] && ip[4..6] == before[4..6] && ip[6..8] == before[6..8];
    assert ip[12..16] == SOURCE && ip[16..20] == DESTINATION;
  }
}

/** Big-endian fields, and the bit fields inside a byte. */
module Wire {
  import opened Sequences

  const WORD := 0x1_0000
  const LONG := 0x1_0000_0000

  function U16(v: nat): (r: seq<byte>)
    requires v < WORD
    ensures |r| == 2 && ReadU16(r, 0) == v
  {
    [v / 0x100, v % 0x100]
  }

  function ReadU16(bytes: seq<byte>, at: nat): (r: nat)
    requires at + 2 <= |bytes|
    ensures r < WORD
  {
    (bytes[at] as int) * 0x100 + bytes[at + 1] as int
  }

  function U32(v: nat): (r: seq<byte>)
    requires v < LONG
    ensures |r| == 4 && ReadU32(r, 0) == v
  {
    U16(v / WORD) + U16(v % WORD)
  }

  function ReadU32(bytes: seq<byte>, at: nat): (r: nat)
    requires at + 4 <= |bytes|
    ensures r < LONG
  {
    ReadU16(bytes, at) * WORD + ReadU16(bytes, at + 2)
  }

  lemma U16OfRead(bytes: seq<byte>, at: nat)
    requires at + 2 <= |bytes|
    ensures U16(ReadU16(bytes, at)) == bytes[at..at + 2]
  {
  }

  lemma U32OfRead(bytes: seq<byte>, at: nat)
    requires at + 4 <= |bytes|
    ensures U32(ReadU32(bytes, at)) == bytes[at..at + 4]
  {
    U16OfRead(bytes, at);
    U16OfRead(bytes, at + 2);
    TwoWords(ReadU16(bytes, at), ReadU16(bytes, at + 2));
    assert bytes[at..at + 4] == bytes[at..at + 2] + bytes[at + 2..at + 4];
  }

  lemma TwoWords(high: nat, low: nat)
    requires high < WORD && low < WORD
    ensures U32(high * WORD + low) == U16(high) + U16(low)
  {
    assert (high * WORD + low) / WORD == high && (high * WORD + low) % WORD == low;
  }

  /** A field read from inside a longer message is the field as written. */
  lemma ReadInside(before: seq<byte>, field: seq<byte>, after: seq<byte>)
    ensures |field| >= 2 ==> ReadU16(before + field + after, |before|) == ReadU16(field, 0)
    ensures |field| >= 4 ==> ReadU32(before + field + after, |before|) == ReadU32(field, 0)
  {
    var all := before + field + after;
    forall i | 0 <= i < |field| ensures all[|before| + i] == field[i] {
    }
  }

  /** The number some bytes spell, the first one weighing most. */
  function BigEndian(bytes: seq<byte>): nat {
    if bytes == [] then 0 else BigEndian(bytes[..|bytes| - 1]) * 256 + bytes[|bytes| - 1]
  }

  lemma TwoBytes(bytes: seq<byte>)
    requires |bytes| == 2
    ensures BigEndian(bytes) == (bytes[0] as int) * 256 + bytes[1] as int
  {
    var first := bytes[..1];
    assert first[..0] == [];
    assert BigEndian(first) == BigEndian(first[..0]) * 256 + bytes[0];
  }

  lemma FourBytes(bytes: seq<byte>)
    requires |bytes| == 4
    ensures BigEndian(bytes) == BigEndian(bytes[..2]) * WORD + BigEndian(bytes[2..])
  {
    var three := bytes[..3];
    assert three[..2] == bytes[..2];
    TwoBytes(bytes[2..]);
    assert BigEndian(three) == BigEndian(three[..2]) * 256 + bytes[2];
  }

  /** Fields are read and written in network byte order. */
  lemma FieldsAreBigEndian(bytes: seq<byte>, at: nat)
    ensures at + 2 <= |bytes| ==> ReadU16(bytes, at) == BigEndian(bytes[at..at + 2])
    ensures at + 4 <= |bytes| ==> ReadU32(bytes, at) == BigEndian(bytes[at..at + 4])
  {
    if at + 2 <= |bytes| {
      TwoBytes(bytes[at..at + 2]);
    }
    if at + 4 <= |bytes| {
      var four := bytes[at..at + 4];
      FourBytes(four);
      TwoBytes(bytes[at + 2..at + 4]);
      assert four[..2] == bytes[at..at + 2] && four[2..] == bytes[at + 2..at + 4];
    }
  }

  lemma WrittenBigEndian(v: nat)
    ensures v < WORD ==> BigEndian(U16(v)) == v
    ensures v < LONG ==> BigEndian(U32(v)) == v
  {
    if v < WORD {
      FieldsAreBigEndian(U16(v), 0);
      assert U16(v)[0..2] == U16(v);
    }
    if v < LONG {
      FieldsAreBigEndian(U32(v), 0);
      assert U32(v)[0..4] == U32(v);
    }
  }

  /** A byte's bits, the heaviest first, as 0 or 1. */
  function Bits(b: byte): (r: seq<nat>)
    ensures |r| == 8 && forall i :: 0 <= i < 8 ==> r[i] < 2
  {
    [b / 128 % 2, b / 64 % 2, b / 32 % 2, b / 16 % 2, b / 8 % 2, b / 4 % 2, b / 2 % 2, b % 2]
  }

  lemma BitsSpell(b: byte)
    ensures var t := Bits(b); b == 128 * t[0] + 64 * t[1] + 32 * t[2] + 16 * t[3] + 8 * t[4] + 4 * t[5] + 2 * t[6] + t[7]
  {
    assert b / 128 < 2 && b / 64 == 2 * (b / 128) + b / 64 % 2 && b / 32 == 2 * (b / 64) + b / 32 % 2;
    assert b / 16 == 2 * (b / 32) + b / 16 % 2 && b / 8 == 2 * (b / 16) + b / 8 % 2;
    assert b / 4 == 2 * (b / 8) + b / 4 % 2 && b / 2 == 2 * (b / 4) + b / 2 % 2 && b == 2 * (b / 2) + b % 2;
  }
}

/** The Internet checksum (RFC 1071), and how far its two folds carry. */
module Checksum {
  import opened Sequences
  import opened Wire

  const MASK := 0xFFFF

  /** The most words whose sum two folds always bring round; more than the 2 to the 16 a packet could hold. */
  const MOST_WORDS := 65538

  /** The sum of the data's 16-bit words, an odd last byte padded with a zero. */
  function WordSum(data: seq<byte>): nat {
    if data == [] then 0
    else if |data| == 1 then data[0] as int * 0x100
    else ReadU16(data, 0) + WordSum(data[2..])
  }

  /** Adding two words with the carry brought round: section 1 of RFC 1071. */
  function OnesAdd(a: nat, b: nat): (r: nat)
    requires a <= MASK && b <= MASK
    ensures r <= MASK
  {
    if a + b <= MASK then a + b else a + b - MASK
  }

  /** The one's complement sum of the data's words. */
  function OnesSum(data: seq<byte>): (r: nat)
    ensures r <= MASK
  {
    if data == [] then 0
    else if |data| == 1 then data[0] as int * 0x100
    else OnesAdd(ReadU16(data, 0), OnesSum(data[2..]))
  }

  function RfcChecksum(data: seq<byte>): nat {
    MASK - OnesSum(data)
  }

  /** The low word of a sum after its carries were folded in twice. */
  function TwoFolds(sum: nat): (r: nat)
    ensures r <= MASK
  {
    var once := sum / WORD + sum % WORD;
    (once + once / WORD) % WORD
  }

  function Checksum(data: seq<byte>): nat {
    MASK - TwoFolds(WordSum(data))
  }

  method InternetChecksum(data: seq<byte>) returns (checksum: nat)
    ensures checksum == Checksum(data)
    ensures |data| <= 2 * MOST_WORDS ==> checksum == RfcChecksum(data)
  {
    var padded := data;
    if |data| % 2 != 0 {
      padded := padded + [0];
      PaddingAddsNothing(data);
    }
    var total := WordSum(padded);
    total := total / WORD + total % WORD;
    total := total + total / WORD;
    checksum := MASK - total % WORD;
    if |data| <= 2 * MOST_WORDS {
      TwoFoldsAreTheRfcChecksum(data);
    }
  }

  lemma {:induction false} PaddingAddsNothing(data: seq<byte>)
    requires |data| % 2 != 0
    ensures WordSum(data + [0]) == WordSum(data)
  {
    if |data| > 1 {
      assert (data + [0])[2..] == data[2..] + [0];
      PaddingAddsNothing(data[2..]);
    } else {
      assert (data + [0])[2..] == [];
    }
  }

  /** A sum with every carry brought round: 0 only for nothing, else in 1..0xFFFF. */
  function Folded(sum: nat): (r: nat)
    ensures r <= MASK
  {
    if sum == 0 then 0 else (sum - 1) % MASK + 1
  }

  lemma FoldedPlus(sum: nat, word: nat)
    requires word <= MASK
    ensures OnesAdd(word, Folded(sum)) == Folded(sum + word)
  {
    var q, f := (sum - 1) / MASK, Folded(sum);
    if sum > 0 && word > 0 {
      assert sum - 1 == q * MASK + (f - 1);
      if f - 1 + word < MASK {
        Remainder(sum - 1 + word, q, f - 1 + word);
      } else {
        Remainder(sum - 1 + word, q + 1, f - 1 + word - MASK);
      }
    }
  }

  lemma Remainder(x: int, q: int, r: int)
    requires 0 <= r < MASK && x == q * MASK + r
    ensures x % MASK == r
  {
  }

  lemma {:induction false} OnesSumIsFolded(data: seq<byte>)
    ensures OnesSum(data) == Folded(WordSum(data))
  {
    if |data| >= 2 {
      OnesSumIsFolded(data[2..]);
      FoldedPlus(WordSum(data[2..]), ReadU16(data, 0));
    }
  }

  lemma FoldedAlike(sum: nat, k: nat, rest: nat)
    requires sum == k * MASK + rest && rest > 0
    ensures Folded(sum) == Folded(rest)
  {
    var q, r := (rest - 1) / MASK, (rest - 1) % MASK;
    assert rest - 1 == q * MASK + r;
    Remainder(sum - 1, k + q, r);
  }

  /** One word of a number is all of it, folded, when there is no other or the others come to nothing. */
  lemma LowWordSufficesIff(t: nat)
    ensures t % WORD == Folded(t) <==> t < WORD || (t / WORD % MASK == 0 && t % WORD != 0)
  {
    var high, low := t / WORD, t % WORD;
    var m, c := high / MASK, high % MASK;
    assert t == high * WORD + low && high == m * MASK + c;
    if t >= WORD && c + low > 0 {
      assert t == (high + m) * MASK + (c + low);
      FoldedAlike(t, high + m, c + low);
    }
  }

  /** What two folds leave, before its low word is taken. */
  function FoldedTwice(sum: nat): nat {
    var once := sum / WORD + sum % WORD;
    once / WORD + once % WORD
  }

  /**
   Two folds bring every carry round exactly when adding the second one's carry makes no third, or when that third
   is a whole number of rounds and there is something left beside it.
   */
  lemma TwoFoldsSufficeIff(sum: nat)
    ensures var twice := FoldedTwice(sum);
            TwoFolds(sum) == Folded(sum) <==> twice < WORD || (twice / WORD % MASK == 0 && twice % WORD != 0)
  {
    var high, low := sum / WORD, sum % WORD;
    var once := high + low;
    var q, r := once / WORD, once % WORD;
    assert sum == high * MASK + once && once == q * MASK + (q + r);
    assert once + q == q * WORD + (q + r);
    LowWordSufficesIff(q + r);
    LowWords(once + q, q, q + r);
    if sum > 0 {
      FoldedAlike(sum, high + q, q + r);
    }
  }

  lemma LowWords(x: nat, q: nat, rest: nat)
    requires x == q * WORD + rest
    ensures x % WORD == rest % WORD
  {
    assert x == (q + rest / WORD) * WORD + rest % WORD;
  }

  function Words(data: seq<byte>): nat {
    (|data| + 1) / 2
  }

  lemma {:induction false} SumOfWords(data: seq<byte>)
    ensures WordSum(data) <= MASK * Words(data)
  {
    if |data| >= 2 {
      SumOfWords(data[2..]);
    }
  }

  lemma SmallSumsNeedTwoFolds(sum: nat)
    requires sum <= MASK * MOST_WORDS
    ensures TwoFolds(sum) == Folded(sum)
  {
    TwoFoldsSufficeIff(sum);
    var high, low := sum / WORD, sum % WORD;
    assert high <= WORD && (high == WORD ==> low < MASK);
  }

  /** Two folds suffice: for any data of up to `MOST_WORDS` words this is the checksum of RFC 1071. */
  lemma TwoFoldsAreTheRfcChecksum(data: seq<byte>)
    requires |data| <= 2 * MOST_WORDS
    ensures Checksum(data) == RfcChecksum(data)
  {
    SumOfWords(data);
    OnesSumIsFolded(data);
    assert Words(data) <= MOST_WORDS;
    assert WordSum(data) <= MASK * MOST_WORDS;
    SmallSumsNeedTwoFolds(WordSum(data));
  }

  /** `n` words of all ones. */
  function Ones(n: nat): (r: seq<byte>)
    ensures |r| == 2 * n
  {
    if n == 0 then [] else [0xFF, 0xFF] + Ones(n - 1)
  }

  lemma {:induction false} SumOfOnes(n: nat, tail: seq<byte>)
    ensures WordSum(Ones(n) + tail) == n * MASK + WordSum(tail)
  {
    if n == 0 {
      assert Ones(n) + tail == tail;
    } else {
      assert (Ones(n) + tail)[2..] == Ones(n - 1) + tail;
      SumOfOnes(n - 1, tail);
    }
  }

  /** One word more, and there is data whose second fold carries again and loses the carry. */
  lemma OneWordTooMany()
    ensures var data := Ones(MOST_WORDS) + [0, 1];
            Words(data) == MOST_WORDS + 1 && Checksum(data) != RfcChecksum(data)
  {
    var data := Ones(MOST_WORDS) + [0, 1];
    SumOfOnes(MOST_WORDS, [0, 1]);
    assert WordSum([0, 1]) == 1;
    TwoFoldsSufficeIff(WordSum(data));
    OnesSumIsFolded(data);
  }

  lemma {:induction false} WordSumAppend(a: seq<byte>, b: seq<byte>)
    requires |a| % 2 == 0
    ensures WordSum(a + b) == WordSum(a) + WordSum(b)
  {
    if a == [] {
      assert a + b == b;
    } else {
      assert (a + b)[2..] == a[2..] + b;
      assert ReadU16(a + b, 0) == ReadU16(a, 0);
      WordSumAppend(a[2..], b);
    }
  }

  lemma SumOfThree(a: seq<byte>, word: nat, b: seq<byte>)
    requires |a| % 2 == 0 && word < WORD
    ensures WordSum(a + U16(word) + b) == WordSum(a) + word + WordSum(b)
  {
    WordSumAppend(a + U16(word), b);
    WordSumAppend(a, U16(word));
    assert U16(word)[2..] == [];
  }

  lemma ComplementFills(sum: nat)
    ensures Folded(sum + (MASK - Folded(sum))) == MASK
  {
    if sum > 0 {
      var q := (sum - 1) / MASK;
      assert sum - 1 == q * MASK + (Folded(sum) - 1);
      Remainder(sum + MASK - Folded(sum) - 1, q, MASK - 1);
    }
  }

  /** Put in the zeroed word it is computed over, the checksum makes the whole check to 0. */
  lemma ChecksumVerifies(a: seq<byte>, b: seq<byte>)
    requires |a| % 2 == 0 && |a| + 2 + |b| <= 2 * MOST_WORDS
    ensures Checksum(a + U16(Checksum(a + U16(0) + b)) + b) == 0
  {
    var sum := WordSum(a) + WordSum(b);
    SumOfThree(a, 0, b);
    TwoFoldsAreTheRfcChecksum(a + U16(0) + b);
    OnesSumIsFolded(a + U16(0) + b);
    var checksum := Checksum(a + U16(0) + b);
    assert checksum == MASK - Folded(sum);
    var whole := a + U16(checksum) + b;
    SumOfThree(a, checksum, b);
    TwoFoldsAreTheRfcChecksum(whole);
    OnesSumIsFolded(whole);
    ComplementFills(sum);
  }
}

/** The pseudorandom text that files are filled with. */
module Payload {

  /** The alphabet: 64 letters, so that a letter is picked evenly. */
  const ASCII_LETTERS: string := "abcdefghijklmnopqrstuvwxyzABCDEFGHIJKLMNOPQRSTUVWXYZ1234567890()"

  const TWO_TO_16: nat := 0x1_0000
  const TWO_TO_32: nat := 0x1_0000_0000

  /** An unsigned 32-bit integer. */
  type Word = n: nat | n < TWO_TO_32

  const MULTIPLIER: Word := 2654435761

  /** Multiplied with the multiplier it gives one, modulo 2^32. */
  const INVERSE: Word := 244002641

  function Letter(rnd: Word): (c: char)
    ensures c in ASCII_LETTERS
  {
    var i := rnd / TWO_TO_16 % |ASCII_LETTERS|;
    assert ASCII_LETTERS[i] in ASCII_LETTERS;
    ASCII_LETTERS[i]
  }

  /** The letter is chosen by the upper half of the state: by its remainder modulo 64, that is by bits 16 to 21. */
  lemma LetterFromUpperHalf(upper: nat, lower: nat)
    requires upper < TWO_TO_16 && lower < TWO_TO_16
    ensures upper * TWO_TO_16 + lower < TWO_TO_32
    ensures Letter(upper * TWO_TO_16 + lower) == ASCII_LETTERS[upper % 64]
  {
    var rnd := upper * TWO_TO_16 + lower;
    assert rnd / TWO_TO_16 == upper;
    assert |ASCII_LETTERS| == 64;
  }

  /** Where a letter is in the alphabet. */
  function Place(c: char): int {
    if 'a' <= c <= 'z' then c as int - 'a' as int
    else if 'A' <= c <= 'Z' then 26 + c as int - 'A' as int
    else if '1' <= c <= '9' then 52 + c as int - '1' as int
    else if c == '0' then 61
    else if c == '(' then 62
    else 63
  }

  lemma SmallLetters(i: nat)
    requires i < 26
    ensures Place("abcdefghijklmnopqrstuvwxyz"[i]) == i
  {
  }

  lemma SmallAndCapitalLetters(i: nat)
    requires i < 52
    ensures Place("abcdefghijklmnopqrstuvwxyzABCDEFGHIJKLMNOPQRSTUVWXYZ"[i]) == i
  {
    if i < 26 {
      SmallLetters(i);
    }
  }

  /** The letters of the alphabet are all different. */
  lemma AlphabetInOrder(i: nat)
    requires i < 64
    ensures Place(ASCII_LETTERS[i]) == i
  {
    if i < 52 {
      SmallAndCapitalLetters(i);
    }
  }

  lemma LettersDiffer(i: nat, j: nat)
    requires i < 64 && j < 64 && ASCII_LETTERS[i] == ASCII_LETTERS[j]
    ensures i == j
  {
    AlphabetInOrder(i);
    AlphabetInOrder(j);
  }

  /** Bitwise exclusive or. */
  function Xor(a: nat, b: nat): nat {
    if a == 0 then b
    else if b == 0 then a
    else 2 * Xor(a / 2, b / 2) + (if a % 2 == b % 2 then 0 else 1)
  }

  function Times(a: Word, b: Word): Word {
    a * b % TWO_TO_32
  }

  lemma {:induction false} XorBound(a: nat, b: nat, bound: nat)
    requires a < Power2(bound) && b < Power2(bound)
    ensures Xor(a, b) < Power2(bound)
  {
    if a > 0 && b > 0 {
      XorBound(a / 2, b / 2, bound - 1);
    }
  }

  function Power2(n: nat): nat {
    if n == 0 then 1 else 2 * Power2(n - 1)
  }

  lemma {:induction false} XorTwice(a: nat, b: nat)
    ensures Xor(Xor(a, b), b) == a
  {
    if a == 0 {
      XorSelf(b);
    } else if b > 0 {
      XorTwice(a / 2, b / 2);
      assert Xor(a, b) / 2 == Xor(a / 2, b / 2);
      assert Xor(a, b) == 0 ==> Xor(a / 2, b / 2) == 0 && a % 2 == b % 2;
    }
  }

  function Bit(n: nat, k: nat): nat {
    if k == 0 then n % 2 else Bit(n / 2, k - 1)
  }

  lemma {:induction false} BitsOfZero(k: nat)
    ensures Bit(0, k) == 0
  {
    if k > 0 {
      BitsOfZero(k - 1);
    }
  }

  /** A bit of the result is set if it is set in exactly one of the two numbers. */
  lemma {:induction false} XorBits(a: nat, b: nat, k: nat)
    ensures Bit(Xor(a, b), k) == if Bit(a, k) == Bit(b, k) then 0 else 1
    decreases k
  {
    BitsOfZero(k);
    BitIsBit(a, k);
    BitIsBit(b, k);
    if a > 0 && b > 0 && k > 0 {
      assert Xor(a, b) / 2 == Xor(a / 2, b / 2);
      XorBits(a / 2, b / 2, k - 1);
    }
  }

  lemma {:induction false} BitIsBit(n: nat, k: nat)
    ensures Bit(n, k) == 0 || Bit(n, k) == 1
  {
    if k > 0 {
      BitIsBit(n / 2, k - 1);
    }
  }

  lemma {:induction false} XorSelf(b: nat)
    ensures Xor(b, b) == 0
  {
    if b > 0 {
      XorSelf(b / 2);
    }
  }

  function XorWord(a: Word, b: Word): Word {
    assert Power2(32) == TWO_TO_32 by {
      Powers();
    }
    XorBound(a, b, 32);
    Xor(a, b)
  }

  lemma Powers()
    ensures Power2(32) == TWO_TO_32
  {
    assert Power2(8) == 256;
    assert Power2(16) == 256 * 256;
    assert Power2(24) == 256 * 256 * 256;
  }

  /** The state after one letter. */
  function Next(rnd: Word, rnd2: Word): Word {
    Times(XorWord(rnd, rnd2), MULTIPLIER)
  }

  /** The second half of the seed goes in before the multiplication: it could as well have been in the state. */
  lemma MixedInFirst(rnd: Word, rnd2: Word)
    ensures Next(rnd, 0) == rnd * 2654435761 % TWO_TO_32
    ensures Next(rnd, rnd2) == Next(XorWord(rnd, rnd2), 0)
  {
    assert Xor(rnd, 0) == rnd && Xor(Xor(rnd, rnd2), 0) == Xor(rnd, rnd2);
  }

  function State(rnd: Word, rnd2: Word, n: nat): Word {
    if n == 0 then rnd else Next(State(rnd, rnd2, n - 1), rnd2)
  }

  /** The first `n` letters. */
  function Letters(rnd: Word, rnd2: Word, n: nat): (text: string)
    ensures |text| == n
  {
    if n == 0 then [] else Letters(rnd, rnd2, n - 1) + [Letter(State(rnd, rnd2, n - 1))]
  }

  /** Fills a buffer with letters; `seed` is a 64-bit number. */
  method RandAsciiBytes(dst: array<char>, seed: nat)
    requires seed < TWO_TO_32 * TWO_TO_32
    modifies dst
    ensures dst[..] == Letters(seed % TWO_TO_32, seed / TWO_TO_32, dst.Length)
  {
    var rnd: Word, rnd2: Word := seed % TWO_TO_32, seed / TWO_TO_32;
    ghost var start := rnd;
    for i := 0 to dst.Length
      invariant rnd == State(start, rnd2, i)
      invariant dst[..i] == Letters(start, rnd2, i)
    {
      dst[i] := Letter(rnd);
      assert dst[..i + 1] == dst[..i] + [dst[i]];
      rnd := XorWord(rnd, rnd2);
      rnd := Times(rnd, MULTIPLIER);
    }
    assert dst[..] == dst[..dst.Length];
  }

  /** Each place has the letter of its state, so that a shorter text is the beginning of a longer one. */
  lemma {:induction false} LetterAt(rnd: Word, rnd2: Word, n: nat, k: nat)
    requires k < n
    ensures Letters(rnd, rnd2, n)[k] == Letter(State(rnd, rnd2, k))
    ensures Letters(rnd, rnd2, n)[..k] == Letters(rnd, rnd2, k)
  {
    if k < n - 1 {
      LetterAt(rnd, rnd2, n - 1, k);
      assert Letters(rnd, rnd2, n)[..k] == Letters(rnd, rnd2, n - 1)[..k];
    }
  }

  // ----- The generator comes back to where it started

  lemma TimesInverse(x: Word, a: Word, b: Word)
    requires (a == MULTIPLIER && b == INVERSE) || (a == INVERSE && b == MULTIPLIER)
    ensures Times(Times(x, a), b) == x
  {
    var p, q := x * a / TWO_TO_32, a * b / TWO_TO_32;
    assert a * b == q * TWO_TO_32 + 1;
    assert Times(x, a) * b == (x * a - p * TWO_TO_32) * b == x * (a * b) - p * b * TWO_TO_32 == x + (x * q - p * b) * TWO_TO_32;
    RemainderIs(Times(x, a) * b, x * q - p * b, x);
  }

  lemma RemainderIs(n: nat, q: int, r: Word)
    requires n == q * TWO_TO_32 + r
    ensures n % TWO_TO_32 == r
  {
  }

  /** The step is a bijection: this undoes it ... */
  function Previous(rnd: Word, rnd2: Word): Word {
    XorWord(Times(rnd, INVERSE), rnd2)
  }

  lemma StepIsBijective(rnd: Word, rnd2: Word)
    ensures Previous(Next(rnd, rnd2), rnd2) == rnd
    ensures Next(Previous(rnd, rnd2), rnd2) == rnd
  {
    TimesInverse(XorWord(rnd, rnd2), MULTIPLIER, INVERSE);
    XorTwice(rnd, rnd2);
    XorTwice(Times(rnd, INVERSE), rnd2);
    TimesInverse(rnd, INVERSE, MULTIPLIER);
  }

  /** ... so two equal states have come from equal states. */
  lemma {:induction false} EqualFromTheStart(rnd: Word, rnd2: Word, i: nat, j: nat)
    requires i <= j && State(rnd, rnd2, i) == State(rnd, rnd2, j)
    ensures State(rnd, rnd2, j - i) == rnd
  {
    if i > 0 {
      StepIsBijective(State(rnd, rnd2, i - 1), rnd2);
      StepIsBijective(State(rnd, rnd2, j - 1), rnd2);
      EqualFromTheStart(rnd, rnd2, i - 1, j - 1);
    }
  }

  /** More numbers than there are values: two of them are equal. */
  lemma {:induction false} Pigeonhole(s: seq<nat>, values: nat) returns (i: nat, j: nat)
    requires |s| > values && forall k :: 0 <= k < |s| ==> s[k] < values
    ensures i < j < |s| && s[i] == s[j]
    decreases values
  {
    var last, top := |s| - 1, values - 1;
    if at :| 0 <= at < last && s[at] == s[last] {
      return at, last;
    }
    // nothing before the last has its value, so the largest value can take its place
    var renamed := seq(last, k requires 0 <= k < last => if s[k] == top then s[last] else s[k]);
    i, j := Pigeonhole(renamed, top);
  }

  /** The states come back to the first after at most 2^32 steps, whatever the seed. */
  lemma StatesReturn(rnd: Word, rnd2: Word) returns (period: nat)
    ensures 0 < period <= TWO_TO_32 && State(rnd, rnd2, period) == rnd
  {
    var states := seq(TWO_TO_32 + 1, n requires 0 <= n => State(rnd, rnd2, n) as nat);
    var i, j := Pigeonhole(states, TWO_TO_32);
    EqualFromTheStart(rnd, rnd2, i, j);
    period := j - i;
  }
}

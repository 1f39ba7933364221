/** The length of a sealed cursor, and the fixed point of a byte count that includes itself. */
module TokenLength {

  /** Decimal digits, as JSON writes a non-negative integer. */
  function Digits(n: nat): (d: nat)
    ensures d >= 1
  {
    if n < 10 then 1 else 1 + Digits(n / 10)
  }

  function Pow10(d: nat): (p: nat)
    ensures p >= 1
  {
    if d == 0 then 1 else 10 * Pow10(d - 1)
  }

  /** Unpadded base64url (section 5 of RFC 4648): four characters for three bytes, two or three for
      the one or two bytes left over. */
  function Base64Length(bytes: nat): nat {
    4 * (bytes / 3) + (if bytes % 3 == 0 then 0 else bytes % 3 + 1)
  }

  /** They are the fewest characters of six bits that hold the bytes. */
  lemma Base64IsTight(bytes: nat)
    ensures 6 * Base64Length(bytes) >= 8 * bytes > 6 * (Base64Length(bytes) - 1)
  {
    assert bytes == 3 * (bytes / 3) + bytes % 3;
  }

  const NONCE := 12
  const TAG := 16

  /** Key id, a dot, and the encoded nonce, ciphertext and tag. */
  function SealedLength(kid: nat, plain: nat): nat {
    kid + 1 + Base64Length(NONCE + plain + TAG)
  }

  lemma {:induction false} DigitsBound(n: nat)
    ensures n < Pow10(Digits(n))
    ensures n >= 1 ==> Pow10(Digits(n) - 1) <= n
  {
    if n >= 10 { DigitsBound(n / 10); }
  }

  lemma {:induction false} DigitsMonotone(a: nat, b: nat)
    requires a <= b
    ensures Digits(a) <= Digits(b)
  {
    if b >= 10 && a >= 10 { DigitsMonotone(a / 10, b / 10); }
  }

  /** A number below `10^d` has at most `d` digits. */
  lemma {:induction false} FewDigits(n: nat, d: nat)
    requires d >= 1 && n < Pow10(d)
    ensures Digits(n) <= d
  {
    if n >= 10 { FewDigits(n / 10, d - 1); }
  }

  /** Each further plaintext byte lengthens the sealed token by one or two characters. */
  lemma {:induction false} SealedGrowth(kid: nat, plain: nat, more: nat)
    ensures SealedLength(kid, plain) + more <= SealedLength(kid, plain + more) <= SealedLength(kid, plain) + 2 * more
  {
    if more > 0 {
      SealedGrowth(kid, plain, more - 1);
      NextByte(NONCE + (plain + more - 1) + TAG);
    }
  }

  lemma NextByte(bytes: nat)
    ensures Base64Length(bytes) + 1 <= Base64Length(bytes + 1) <= Base64Length(bytes) + 2
  {
    if bytes % 3 == 2 {
      assert bytes + 1 == 3 * (bytes / 3 + 1);
    } else {
      assert bytes + 1 == 3 * (bytes / 3) + (bytes % 3 + 1);
    }
  }

  /** The total after a page whose encoding, cursor included, adds `rest` bytes plus a token that
      carries the total `t`. */
  function Total(before: nat, rest: nat, kid: nat, plain: nat, t: nat): nat {
    before + rest + SealedLength(kid, plain + Digits(t))
  }

  lemma TotalStep(before: nat, rest: nat, kid: nat, plain: nat, s: nat, t: nat)
    requires s <= t
    ensures var a, b := Total(before, rest, kid, plain, s), Total(before, rest, kid, plain, t);
            a <= b <= a + 2 * (Digits(t) - Digits(s)) && (a == b <==> Digits(s) == Digits(t))
  {
    DigitsMonotone(s, t);
    SealedGrowth(kid, plain + Digits(s), Digits(t) - Digits(s));
  }

  lemma {:induction false} Pow10Outgrows(d: nat)
    requires d >= 1
    ensures 9 * Pow10(d) >= 2 * d + 2
  {
    if d > 1 { Pow10Outgrows(d - 1); }
  }

  /** A total just above a power of ten stays below the next one. */
  lemma NoSecondCrossing(t: nat, more: nat)
    requires more <= 2 * Digits(t) + 2
    ensures Digits(t + more) <= Digits(t) + 1
  {
    DigitsBound(t);
    Pow10Outgrows(Digits(t));
    FewDigits(t + more, Digits(t) + 1);
  }

  /** Four rounds of recomputing the total always reach the fixed point: the first jump can change
      the number of digits at will, but after it a power of ten is crossed at most once. */
  lemma FourRoundsSuffice(before: nat, rest: nat, kid: nat, plain: nat)
    ensures var t1 := Total(before, rest, kid, plain, before);
            var t2 := Total(before, rest, kid, plain, t1);
            var t3 := Total(before, rest, kid, plain, t2);
            Total(before, rest, kid, plain, t3) == t3
  {
    var t1 := Total(before, rest, kid, plain, before);
    var t2 := Total(before, rest, kid, plain, t1);
    var t3 := Total(before, rest, kid, plain, t2);
    TotalStep(before, rest, kid, plain, before, t1);
    TotalStep(before, rest, kid, plain, t1, t2);
    DigitsMonotone(t1, t2);
    DigitsMonotone(t2, t3);
    NoSecondCrossing(t1, t2 - t1);
    NoSecondCrossing(t1, t3 - t1);
  }

  /** One round, as a function of the total it starts from. */
  function Round(before: nat, rest: nat, kid: nat, plain: nat): nat -> nat {
    (t: nat) => Total(before, rest, kid, plain, t)
  }

  lemma FourRounds(before: nat, rest: nat, kid: nat, plain: nat)
    ensures var round := Round(before, rest, kid, plain); round(round(round(round(before)))) == round(round(round(before)))
  {
    FourRoundsSuffice(before, rest, kid, plain);
  }

  /** Three rounds would not do: here the third total still differs from the second. */
  lemma ThreeRoundsFallShort()
    ensures var t1 := Total(0, 824, 1, 100, 0);
            var t2 := Total(0, 824, 1, 100, t1);
            Total(0, 824, 1, 100, t2) != t2
  {
    assert Total(0, 824, 1, 100, 0) == 998;
    assert Digits(998) == 3 && Total(0, 824, 1, 100, 998) == 1001;
    assert Digits(1001) == 4 && Total(0, 824, 1, 100, 1001) == 1002;
  }
}

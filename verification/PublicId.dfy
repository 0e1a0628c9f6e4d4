/** Session and command ids: `encode_public_id` in shiitake-server/src/http/sessions.rs. */
module PublicId {
  import opened Bytes

  const ALPHABET := "0123456789abcdefghjkmnpqrstvwxyz"
  const DIGITS := 16

  /** The ten bytes as a number, first byte highest. */
  function Value(bytes: seq<byte>): nat {
    if bytes == [] then 0 else Value(bytes[..|bytes| - 1]) * 256 + bytes[|bytes| - 1] as nat
  }

  function Pow(base: nat, n: nat): nat { if n == 0 then 1 else base * Pow(base, n - 1) }

  /** The last `n` base-32 digits of a number, highest first. */
  function Digits(value: nat, n: nat): (s: string)
    ensures |s| == n
  {
    if n == 0 then "" else Digits(value / 32, n - 1) + [ALPHABET[value % 32]]
  }

  function PublicId(kind: char, bytes: seq<byte>): string { [kind, '-'] + Digits(Value(bytes), DIGITS) }

  /** The digit a character stands for. */
  function DigitOf(c: char, from: nat): (d: nat)
    requires from <= 32
    ensures d <= 32
    ensures d < 32 ==> ALPHABET[d] == c
    decreases 32 - from
  {
    if from == 32 then 32 else if ALPHABET[from] == c then from else DigitOf(c, from + 1)
  }

  /** Reads digits back, highest first. */
  function Number(digits: string): nat {
    if digits == "" then 0 else Number(digits[..|digits| - 1]) * 32 + DigitOf(digits[|digits| - 1], 0)
  }

  lemma AlphabetDistinct()
    ensures |ALPHABET| == 32
    ensures forall i, j :: 0 <= i < j < 32 ==> ALPHABET[i] != ALPHABET[j]
  {
    forall i, j | 0 <= i < j < 32 ensures ALPHABET[i] < ALPHABET[j] {
      Ascending(i, j);
    }
  }

  /** The alphabet is in ascending order. */
  lemma Ascending(i: nat, j: nat)
    requires i < j < 32
    ensures ALPHABET[i] < ALPHABET[j]
  {
    if i + 1 < j {
      Ascending(i, j - 1);
    }
    assert ALPHABET[j - 1] < ALPHABET[j];
  }

  lemma {:induction false} DigitFound(d: nat, from: nat)
    requires from <= d < 32
    ensures DigitOf(ALPHABET[d], from) == d
    decreases 32 - from
  {
    AlphabetDistinct();
    if from < d {
      DigitFound(d, from + 1);
    }
  }

  /** Digits read back as the number, if there are enough of them. */
  lemma {:induction false} NumberDigits(value: nat, n: nat)
    requires value < Pow(32, n)
    ensures Number(Digits(value, n)) == value
  {
    if n > 0 {
      var s := Digits(value, n);
      assert s[..n - 1] == Digits(value / 32, n - 1);
      NumberDigits(value / 32, n - 1);
      DigitFound(value % 32, 0);
    }
  }

  lemma {:induction false} ValueBound(bytes: seq<byte>)
    ensures Value(bytes) < Pow(256, |bytes|)
  {
    if bytes != [] {
      ValueBound(bytes[..|bytes| - 1]);
    }
  }

  lemma {:induction false} ValueInjective(a: seq<byte>, b: seq<byte>)
    requires |a| == |b| && Value(a) == Value(b)
    ensures a == b
  {
    if a != [] {
      var n := |a| - 1;
      assert Value(a[..n]) == Value(b[..n]) && a[n] == b[n];
      ValueInjective(a[..n], b[..n]);
      assert a == a[..n] + [a[n]] && b == b[..n] + [b[n]];
    }
  }

  lemma EightyBits()
    ensures Pow(256, 10) == Pow(32, DIGITS)
  {
    assert Pow(256, 2) == 0x1_0000;
    assert Pow(256, 4) == 0x1_0000_0000;
    assert Pow(256, 6) == 0x1_0000_0000_0000;
    assert Pow(256, 8) == 0x1_0000_0000_0000_0000;
    assert Pow(256, 10) == 0x1_0000_0000_0000_0000_0000;
    assert Pow(32, 2) == 0x400;
    assert Pow(32, 4) == 0x10_0000;
    assert Pow(32, 6) == 0x4000_0000;
    assert Pow(32, 8) == 0x100_0000_0000;
    assert Pow(32, 10) == 0x4_0000_0000_0000;
    assert Pow(32, 12) == 0x1000_0000_0000_0000;
    assert Pow(32, 14) == 0x40_0000_0000_0000_0000;
  }

  /** The sixteen digits of an id are the ten bytes: reading them back gives their value. */
  lemma DigitsReadBack(kind: char, bytes: seq<byte>)
    requires |bytes| == 10
    ensures |PublicId(kind, bytes)| == 18 && PublicId(kind, bytes)[..2] == [kind, '-']
    ensures Number(PublicId(kind, bytes)[2..]) == Value(bytes)
  {
    ValueBound(bytes);
    EightyBits();
    NumberDigits(Value(bytes), DIGITS);
    assert PublicId(kind, bytes)[2..] == Digits(Value(bytes), DIGITS);
  }

  /** Different random bytes give different ids. */
  lemma Injective(kind: char, a: seq<byte>, kind': char, b: seq<byte>)
    requires |a| == 10 && |b| == 10
    ensures PublicId(kind, a) == PublicId(kind', b) <==> kind == kind' && a == b
  {
    if PublicId(kind, a) == PublicId(kind', b) {
      DigitsReadBack(kind, a);
      DigitsReadBack(kind', b);
      ValueInjective(a, b);
    }
  }

  // ---------------------------------------------------------------- the encoder

  /** `value >> 5 * n`: `n` digits dropped at the low end. */
  function Shifted(value: nat, n: nat): nat { if n == 0 then value else Shifted(value, n - 1) / 32 }

  /** `fold` over the bytes, then one character for each of the shifts 75, 70, .., 0. */
  method EncodePublicId(kind: char, bytes: seq<byte>) returns (id: string)
    requires |bytes| == 10
    ensures id == PublicId(kind, bytes)
  {
    var value := Value(bytes);
    id := [];
    id := id + [kind];
    id := id + ['-'];
    var n: nat := DIGITS;
    assert id == [kind, '-'] + Digits(Shifted(value, n), 0);
    while n > 0
      invariant n <= DIGITS
      invariant id == [kind, '-'] + Digits(Shifted(value, n), DIGITS - n)
    {
      n := n - 1;
      var digit := Shifted(value, n) % 32;
      assert Digits(Shifted(value, n), DIGITS - n) == Digits(Shifted(value, n + 1), DIGITS - n - 1) + [ALPHABET[digit]];
      id := id + [ALPHABET[digit]];
    }
    assert Shifted(value, 0) == value;
  }
}

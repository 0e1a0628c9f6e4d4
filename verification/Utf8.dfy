/** UTF-8, as `str::as_bytes` writes it and `std::str::from_utf8` accepts it
    (section 3.9 of the Unicode Standard, table 3-7). */
module Utf8 {
  import opened Wrappers
  import opened Bytes

  /** A Unicode scalar value. */
  type Scalar = c: int | 0 <= c < 0xD800 || 0xE000 <= c < 0x110000

  function Encode1(c: Scalar): (s: seq<byte>)
    ensures 1 <= |s| <= 4
  {
    if c < 0x80 then [c as byte]
    else if c < 0x800 then [(0xC0 + c / 64) as byte, (0x80 + c % 64) as byte]
    else if c < 0x10000 then [(0xE0 + c / 4096) as byte, (0x80 + c / 64 % 64) as byte, (0x80 + c % 64) as byte]
    else [(0xF0 + c / 262144) as byte, (0x80 + c / 4096 % 64) as byte,
          (0x80 + c / 64 % 64) as byte, (0x80 + c % 64) as byte]
  }

  function Encode(text: seq<Scalar>): seq<byte> {
    if text == [] then [] else Encode1(text[0]) + Encode(text[1..])
  }

  predicate Between(b: byte, low: byte, high: byte) { low <= b <= high }

  predicate Continues(b: byte) { Between(b, 0x80, 0xBF) }

  /** The second bytes allowed after a three- or four-byte lead: no overlong form, no surrogate, nothing past
      U+10FFFF. */
  predicate Second(lead: byte, b: byte) {
    if lead == 0xE0 then Between(b, 0xA0, 0xBF)
    else if lead == 0xED then Between(b, 0x80, 0x9F)
    else if lead == 0xF0 then Between(b, 0x90, 0xBF)
    else if lead == 0xF4 then Between(b, 0x80, 0x8F)
    else Continues(b)
  }

  function Six(b: byte): int { (b as int) % 64 }

  /** The first character and its length in bytes. */
  function Decode1(s: seq<byte>): (r: Option<(Scalar, nat)>)
    requires s != []
    ensures r.Some? ==> 1 <= r.value.1 <= |s|
  {
    var b := s[0];
    if b < 0x80 then Some((b as int, 1))
    else if Between(b, 0xC2, 0xDF) then
      if |s| >= 2 && Continues(s[1]) then Some(((b as int - 0xC0) * 64 + Six(s[1]), 2)) else None
    else if Between(b, 0xE0, 0xEF) then
      if |s| >= 3 && Second(b, s[1]) && Continues(s[2])
      then Some(((b as int - 0xE0) * 4096 + Six(s[1]) * 64 + Six(s[2]), 3)) else None
    else if Between(b, 0xF0, 0xF4) then
      if |s| >= 4 && Second(b, s[1]) && Continues(s[2]) && Continues(s[3])
      then Some(((b as int - 0xF0) * 262144 + Six(s[1]) * 4096 + Six(s[2]) * 64 + Six(s[3]), 4)) else None
    else None
  }

  function Decode(s: seq<byte>): Option<seq<Scalar>> {
    if s == [] then Some([])
    else
      var first := Decode1(s);
      if first.None? then None
      else
        var rest := Decode(s[first.value.1..]);
        if rest.None? then None else Some([first.value.0] + rest.value)
  }

  lemma Join64(high: int, low: int)
    requires 0 <= low < 64
    ensures (high * 64 + low) / 64 == high && (high * 64 + low) % 64 == low
  {
  }

  lemma Trail(b: byte)
    requires Continues(b)
    ensures (0x80 + Six(b)) as byte == b
  {
  }

  lemma Two(s: seq<byte>)
    requires |s| >= 2 && Between(s[0], 0xC2, 0xDF) && Continues(s[1])
    ensures Encode1((s[0] as int - 0xC0) * 64 + Six(s[1])) == s[..2]
  {
    Join64(s[0] as int - 0xC0, Six(s[1]));
    Trail(s[1]);
  }

  lemma Three(s: seq<byte>)
    requires |s| >= 3 && Between(s[0], 0xE0, 0xEF) && Second(s[0], s[1]) && Continues(s[2])
    ensures var c := (s[0] as int - 0xE0) * 4096 + Six(s[1]) * 64 + Six(s[2]);
            (c < 0xD800 || 0xE000 <= c < 0x10000) && c >= 0x800 && Encode1(c) == s[..3]
  {
    var high := (s[0] as int - 0xE0) * 64 + Six(s[1]);
    var c := (s[0] as int - 0xE0) * 4096 + Six(s[1]) * 64 + Six(s[2]);
    assert c == high * 64 + Six(s[2]);
    Join64(high, Six(s[2]));
    Join64(s[0] as int - 0xE0, Six(s[1]));
    Digits64(c);
    assert Continues(s[1]);
    Trail(s[1]);
    Trail(s[2]);
    assert c / 4096 == s[0] as int - 0xE0;
    assert Encode1(c) == [s[0], s[1], s[2]];
  }

  lemma Four(s: seq<byte>)
    requires |s| >= 4 && Between(s[0], 0xF0, 0xF4) && Second(s[0], s[1]) && Continues(s[2]) && Continues(s[3])
    ensures var c := (s[0] as int - 0xF0) * 262144 + Six(s[1]) * 4096 + Six(s[2]) * 64 + Six(s[3]);
            0x10000 <= c < 0x110000 && Encode1(c) == s[..4]
  {
    var high := (s[0] as int - 0xF0) * 64 + Six(s[1]);
    var mid := high * 64 + Six(s[2]);
    var c := (s[0] as int - 0xF0) * 262144 + Six(s[1]) * 4096 + Six(s[2]) * 64 + Six(s[3]);
    assert c == mid * 64 + Six(s[3]);
    Join64(mid, Six(s[3]));
    Join64(high, Six(s[2]));
    Join64(s[0] as int - 0xF0, Six(s[1]));
    assert Continues(s[1]);
    Trail(s[1]);
    Trail(s[2]);
    Trail(s[3]);
    Digits64(c);
    assert c / 4096 == high && c / 262144 == s[0] as int - 0xF0;
    assert Encode1(c) == [s[0], s[1], s[2], s[3]];
  }

  lemma Decode1Encodes(s: seq<byte>)
    requires s != [] && Decode1(s).Some?
    ensures Encode1(Decode1(s).value.0) == s[..Decode1(s).value.1]
  {
    hide Encode1;
    var b := s[0];
    if b < 0x80 {
      One(s);
    } else if Between(b, 0xC2, 0xDF) {
      Two(s);
    } else if Between(b, 0xE0, 0xEF) {
      Three(s);
    } else {
      Four(s);
    }
  }

  lemma One(s: seq<byte>)
    requires s != [] && s[0] < 0x80
    ensures Encode1(s[0] as int) == s[..1]
  {
  }

  lemma Lead(e: seq<byte>, rest: seq<byte>)
    requires e != []
    ensures (e + rest)[0] == e[0] && |e + rest| >= |e|
    ensures |e| > 1 ==> (e + rest)[1] == e[1]
    ensures |e| > 2 ==> (e + rest)[2] == e[2]
    ensures |e| > 3 ==> (e + rest)[3] == e[3]
  {
  }

  lemma Back(low: int)
    requires 0 <= low < 64
    ensures Six((0x80 + low) as byte) == low && Continues((0x80 + low) as byte)
  {
  }

  lemma TwoBack(c: Scalar, rest: seq<byte>)
    requires 0x80 <= c < 0x800
    ensures Decode1(Encode1(c) + rest) == Some((c, 2))
  {
    Lead(Encode1(c), rest);
    Digits64(c);
    Back(c % 64);
  }

  lemma ThreeBack(c: Scalar, rest: seq<byte>)
    requires 0x800 <= c < 0x10000
    ensures Decode1(Encode1(c) + rest) == Some((c, 3))
  {
    var s := Encode1(c) + rest;
    Lead(Encode1(c), rest);
    Digits64(c);
    Back(c % 64);
    Back(c / 64 % 64);
    assert Second(s[0], s[1]);
  }

  lemma FourBack(c: Scalar, rest: seq<byte>)
    requires 0x10000 <= c
    ensures Decode1(Encode1(c) + rest) == Some((c, 4))
  {
    var s := Encode1(c) + rest;
    Lead(Encode1(c), rest);
    Digits64(c);
    Back(c % 64);
    Back(c / 64 % 64);
    Back(c / 4096 % 64);
    assert Second(s[0], s[1]);
  }

  lemma Encode1Decodes(c: Scalar, rest: seq<byte>)
    ensures Decode1(Encode1(c) + rest) == Some((c, |Encode1(c)|))
  {
    if c < 0x80 {
      Lead(Encode1(c), rest);
    } else if c < 0x800 {
      TwoBack(c, rest);
    } else if c < 0x10000 {
      ThreeBack(c, rest);
    } else {
      FourBack(c, rest);
    }
  }

  lemma Digits64(c: int)
    requires 0 <= c < 0x110000
    ensures c == c / 64 * 64 + c % 64
    ensures c / 64 == c / 4096 * 64 + c / 64 % 64
    ensures c / 4096 == c / 262144 * 64 + c / 4096 % 64
  {
  }

  /** Every text comes back from its bytes. */
  lemma {:induction false} DecodeEncode(text: seq<Scalar>)
    ensures Decode(Encode(text)) == Some(text)
  {
    hide Encode1, Decode1;
    if text != [] {
      var e, rest := Encode1(text[0]), Encode(text[1..]);
      Encode1Decodes(text[0], rest);
      assert (e + rest)[|e|..] == rest;
      DecodeEncode(text[1..]);
      assert text == [text[0]] + text[1..];
    }
  }

  /** The bytes accepted are exactly the bytes of some text, and of only one. */
  lemma {:induction false} EncodeDecode(s: seq<byte>)
    ensures Decode(s).Some? ==> Encode(Decode(s).value) == s
  {
    hide Encode1, Decode1;
    if s != [] && Decode(s).Some? {
      var n := Decode1(s).value.1;
      Decode1Encodes(s);
      EncodeDecode(s[n..]);
      assert s == s[..n] + s[n..];
    }
  }
}

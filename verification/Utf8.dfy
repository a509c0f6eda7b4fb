/** Well-formed UTF-8, as the decoder's line check demands it (table 3-7 of the Unicode Standard). */
module Utf8 {
  import opened Common

  predicate Continues(b: Byte) { 0x80 <= b < 0xC0 }

  /** The length of the well-formed character at the front, or zero if there is none. */
  function FrontLength(s: Bytes): (n: nat)
    ensures n <= |s| && n <= 4
    ensures forall k :: 1 <= k < n ==> Continues(s[k])
  {
    if |s| >= 1 && s[0] < 0x80 then 1
    else if |s| >= 2 && 0xC2 <= s[0] < 0xE0 && Continues(s[1]) then 2
    else if |s| >= 3 && 0xE0 <= s[0] < 0xF0 && Continues(s[1]) && Continues(s[2])
            && (s[0] == 0xE0 ==> s[1] >= 0xA0) && (s[0] == 0xED ==> s[1] < 0xA0) then 3
    else if |s| >= 4 && 0xF0 <= s[0] < 0xF5 && Continues(s[1]) && Continues(s[2]) && Continues(s[3])
            && (s[0] == 0xF0 ==> s[1] >= 0x90) && (s[0] == 0xF4 ==> s[1] < 0x90) then 4
    else 0
  }

  predicate Valid(s: Bytes) {
    s == [] || (FrontLength(s) > 0 && Valid(s[FrontLength(s)..]))
  }

  /** A front character is read the same whatever follows it. */
  lemma {:induction false} FrontStays(s: Bytes, more: Bytes)
    requires FrontLength(s) > 0
    ensures FrontLength(s + more) == FrontLength(s)
  {
    assert forall k :: 0 <= k < |s| ==> (s + more)[k] == s[k];
  }

  lemma {:induction false} ValidConcat(a: Bytes, b: Bytes)
    requires Valid(a) && Valid(b)
    ensures Valid(a + b)
  {
    hide FrontLength;
    if a == [] {
      assert a + b == b;
    } else {
      var n := FrontLength(a);
      FrontStays(a, b);
      ValidConcat(a[n..], b);
      assert (a + b)[n..] == a[n..] + b;
    }
  }

  /** The character at the front of a text cannot reach across an ASCII byte. */
  lemma {:induction false} FrontWithin(a: Bytes, c: Byte, b: Bytes)
    requires a != [] && c < 0x80 && FrontLength(a + [c] + b) > 0
    ensures FrontLength(a) == FrontLength(a + [c] + b)
  {
    var s := a + [c] + b;
    assert forall k :: 0 <= k < |a| ==> s[k] == a[k];
    assert s[|a|] == c;
  }

  /** Cutting valid text at an ASCII byte leaves valid text on both sides. */
  lemma {:induction false} ValidParts(a: Bytes, c: Byte, b: Bytes)
    requires c < 0x80 && Valid(a + [c] + b)
    ensures Valid(a) && Valid(b)
  {
    var s := a + [c] + b;
    if a == [] {
      assert s[0] == c && s[1..] == b;
    } else {
      var n := FrontLength(s);
      FrontWithin(a, c, b);
      hide FrontLength;
      assert s[n..] == a[n..] + [c] + b;
      ValidParts(a[n..], c, b);
    }
  }

  /** The byte FF occurs in no valid text. */
  lemma {:induction false} NeverFF(s: Bytes)
    requires Valid(s)
    ensures 0xFF !in s
  {
    if s != [] {
      var n := FrontLength(s);
      NeverFF(s[n..]);
      assert s == s[..n] + s[n..];
      assert 0xFF !in s[..n];
    }
  }

  /** ASCII text is valid. */
  lemma {:induction false} AsciiValid(s: Bytes)
    requires forall k :: 0 <= k < |s| ==> s[k] < 0x80
    ensures Valid(s)
  {
    if s != [] {
      AsciiValid(s[1..]);
    }
  }
  // ---------------------------------------------------------------- what valid text is

  /** The characters there are: all code points but the surrogates. */
  type Scalar = c: int | 0 <= c < 0xD800 || 0xE000 <= c < 0x110000

  /** The bytes of one character, six bits in each but the first. */
  function Encoding(c: Scalar): (s: Bytes)
    ensures 1 <= |s| <= 4
  {
    if c < 0x80 then [c]
    else if c < 0x800 then [0xC0 + c / 64, 0x80 + c % 64]
    else if c < 0x10000 then [0xE0 + c / 4096, 0x80 + c / 64 % 64, 0x80 + c % 64]
    else [0xF0 + c / 262144, 0x80 + c / 4096 % 64, 0x80 + c / 64 % 64, 0x80 + c % 64]
  }

  function EncodingAll(text: seq<Scalar>): Bytes {
    if text == [] then [] else Encoding(text[0]) + EncodingAll(text[1..])
  }

  /** The encoding of a character is read as one character. */
  lemma {:induction false} EncodingIsFront(c: Scalar, more: Bytes)
    ensures FrontLength(Encoding(c) + more) == |Encoding(c)|
  {
    var s := Encoding(c);
    assert (s + more)[0] == s[0];
    assert |s| > 1 ==> (s + more)[1] == s[1];
    assert |s| > 2 ==> (s + more)[2] == s[2];
    assert |s| > 3 ==> (s + more)[3] == s[3];
  }

  /** The six bits a continuation byte carries. */
  function Six(b: Byte): int { b - 0x80 }

  lemma {:induction false} Digits(a: nat, b: nat, d: nat, e: nat)
    requires b < 64 && d < 64 && e < 64
    ensures var c := a * 262144 + b * 4096 + d * 64 + e;
            c / 262144 == a && c / 4096 % 64 == b && c / 64 % 64 == d && c % 64 == e
  {
    var c := a * 262144 + b * 4096 + d * 64 + e;
    assert c / 64 == a * 4096 + b * 64 + d;
    assert c / 4096 == a * 64 + b;
  }

  lemma {:induction false} TwoBytes(lead: Byte, x: Byte) returns (c: Scalar)
    requires 0xC2 <= lead < 0xE0 && Continues(x)
    ensures Encoding(c) == [lead, x]
  {
    var high: int := lead - 0xC0;
    Digits(0, 0, high, Six(x));
    c := high * 64 + Six(x);
  }

  lemma {:induction false} ThreeBytes(lead: Byte, x: Byte, y: Byte) returns (c: Scalar)
    requires 0xE0 <= lead < 0xF0 && Continues(x) && Continues(y)
    requires (lead == 0xE0 ==> x >= 0xA0) && (lead == 0xED ==> x < 0xA0)
    ensures Encoding(c) == [lead, x, y]
  {
    var high: int := lead - 0xE0;
    Digits(0, high, Six(x), Six(y));
    c := high * 4096 + Six(x) * 64 + Six(y);
    assert c / 4096 == high;
  }

  lemma {:induction false} FourBytes(lead: Byte, x: Byte, y: Byte, z: Byte) returns (c: Scalar)
    requires 0xF0 <= lead < 0xF5 && Continues(x) && Continues(y) && Continues(z)
    requires (lead == 0xF0 ==> x >= 0x90) && (lead == 0xF4 ==> x < 0x90)
    ensures Encoding(c) == [lead, x, y, z]
  {
    var high: int := lead - 0xF0;
    Digits(high, Six(x), Six(y), Six(z));
    c := high * 262144 + Six(x) * 4096 + Six(y) * 64 + Six(z);
  }

  /** What is read as one character is the encoding of one. */
  lemma {:induction false} FrontIsEncoding(s: Bytes) returns (c: Scalar)
    requires FrontLength(s) > 0
    ensures s[..FrontLength(s)] == Encoding(c)
  {
    var n := FrontLength(s);
    hide Encoding;
    if n == 1 {
      c := s[0];
      assert Encoding(c) == [s[0]] by { OneByte(s[0]); }
    } else if n == 2 {
      c := TwoBytes(s[0], s[1]);
    } else if n == 3 {
      c := ThreeBytes(s[0], s[1], s[2]);
    } else {
      c := FourBytes(s[0], s[1], s[2], s[3]);
    }
  }

  lemma {:induction false} OneByte(lead: Byte)
    requires lead < 0x80
    ensures Encoding(lead) == [lead]
  {
  }

  lemma {:induction false} EncodingsValid(text: seq<Scalar>)
    ensures Valid(EncodingAll(text))
  {
    hide FrontLength, Encoding;
    if text != [] {
      EncodingsValid(text[1..]);
      var s, rest := EncodingAll(text), EncodingAll(text[1..]);
      EncodingIsFront(text[0], rest);
      assert s[FrontLength(s)..] == rest;
    }
  }

  lemma {:induction false} ValidReads(s: Bytes) returns (text: seq<Scalar>)
    requires Valid(s)
    ensures EncodingAll(text) == s
  {
    hide FrontLength, Encoding;
    if s == [] {
      text := [];
    } else {
      var n := FrontLength(s);
      var c := FrontIsEncoding(s);
      var rest := ValidReads(s[n..]);
      text := [c] + rest;
      assert text[1..] == rest && s == s[..n] + s[n..];
    }
  }

  /** Valid text is exactly what encoding characters gives. */
  lemma {:induction false} ValidIsEncoded(s: Bytes)
    ensures Valid(s) <==> exists text :: EncodingAll(text) == s
  {
    if Valid(s) {
      var text := ValidReads(s);
    }
    if text :| EncodingAll(text) == s {
      EncodingsValid(text);
    }
  }
}

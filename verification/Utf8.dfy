/** UTF-8 as section 3 of RFC 3629 defines it, and the boundaries between encoded characters. */
module Utf8 {
  type byte = b: int | 0 <= b < 256

  /** The octets 80-BF only ever continue a character. */
  predicate IsContinuation(b: byte) { 0x80 <= b < 0xC0 }

  /** How many octets a character takes. */
  function Width(c: char): (w: nat)
    ensures 1 <= w <= 4
  {
    var n := c as int;
    if n < 0x80 then 1 else if n < 0x800 then 2 else if n < 0x1_0000 then 3 else 4
  }

  function EncodeChar(c: char): (bs: seq<byte>)
    ensures |bs| == Width(c) && !IsContinuation(bs[0])
    ensures forall i :: 1 <= i < |bs| ==> IsContinuation(bs[i])
  {
    var n := c as int;
    if n < 0x80 then [n]
    else if n < 0x800 then [0xC0 + n / 64, 0x80 + n % 64]
    else if n < 0x1_0000 then [0xE0 + n / 4096, 0x80 + n / 64 % 64, 0x80 + n % 64]
    else [0xF0 + n / 262144, 0x80 + n / 4096 % 64, 0x80 + n / 64 % 64, 0x80 + n % 64]
  }

  /** The scalar value of an encoded character, from the bits of its octets. */
  function DecodeChar(bs: seq<byte>): (n: int)
    requires 1 <= |bs| <= 4
  {
    var part := seq(|bs|, i requires 0 <= i < |bs| => bs[i] as int);
    match |bs|
    case 1 => part[0]
    case 2 => (part[0] - 0xC0) * 64 + (part[1] - 0x80)
    case 3 => (part[0] - 0xE0) * 4096 + (part[1] - 0x80) * 64 + (part[2] - 0x80)
    case _ => (part[0] - 0xF0) * 262144 + (part[1] - 0x80) * 4096 + (part[2] - 0x80) * 64 + (part[3] - 0x80)
  }

  /** A number is its groups of six bits. */
  lemma SixBits(n: nat)
    ensures n == n / 64 * 64 + n % 64 && n / 64 == n / 4096 * 64 + n / 64 % 64
    ensures n / 4096 == n / 262144 * 64 + n / 4096 % 64
  {
  }

  /** The octets of a character decode to it, and the first one tells how many there are. */
  lemma CharDecodes(c: char)
    ensures DecodeChar(EncodeChar(c)) == c as int
    ensures
      var first := EncodeChar(c)[0];
      match Width(c)
      case 1 => first < 0x80
      case 2 => 0xC0 <= first < 0xE0
      case 3 => 0xE0 <= first < 0xF0
      case _ => 0xF0 <= first < 0xF8
  {
    SixBits(c as int);
  }

  /** No two texts share an encoding. */
  lemma {:induction false} EncodingIsUnique(a: string, b: string)
    requires Encode(a) == Encode(b)
    ensures a == b
    decreases |a|
  {
    if a != [] && b != [] {
      CharDecodes(a[0]);
      CharDecodes(b[0]);
      var x, y := EncodeChar(a[0]), EncodeChar(b[0]);
      assert Encode(a)[0] == x[0] && Encode(b)[0] == y[0];
      assert x == Encode(a)[..|x|] && y == Encode(b)[..|y|];
      assert Encode(a[1..]) == Encode(a)[|x|..] && Encode(b[1..]) == Encode(b)[|y|..];
      EncodingIsUnique(a[1..], b[1..]);
      assert a == [a[0]] + a[1..] && b == [b[0]] + b[1..];
    }
  }

  /** The octets of a text, counted. */
  function Size(text: string): (n: nat) {
    if text == [] then 0 else Width(text[0]) + Size(text[1..])
  }

  function Encode(text: string): (bs: seq<byte>)
    ensures |bs| == Size(text)
  {
    if text == [] then [] else EncodeChar(text[0]) + Encode(text[1..])
  }

  /** A nonempty text of at most `limit` octets. */
  predicate Bounded(text: string, limit: nat) {
    text != [] && Size(text) <= limit
  }

  /** As `str::is_char_boundary`: the ends, or an octet that starts a character. */
  predicate IsCharBoundary(bs: seq<byte>, i: nat) {
    i == 0 || i == |bs| || (i < |bs| && !IsContinuation(bs[i]))
  }

  /** The octet offset of character `k`. */
  function OffsetOf(text: string, k: nat): (i: nat)
    requires k <= |text|
  {
    Size(text[..k])
  }

  lemma {:induction false} SizeAppend(a: string, b: string)
    ensures Size(a + b) == Size(a) + Size(b)
    decreases |a|
  {
    if a == [] {
      assert a + b == b;
    } else {
      assert (a + b)[1..] == a[1..] + b;
      SizeAppend(a[1..], b);
    }
  }

  lemma {:induction false} EncodeAppend(a: string, b: string)
    ensures Encode(a + b) == Encode(a) + Encode(b)
    decreases |a|
  {
    if a == [] {
      assert a + b == b;
    } else {
      assert (a + b)[1..] == a[1..] + b;
      EncodeAppend(a[1..], b);
    }
  }

  lemma EncodeSplit(text: string, k: nat)
    requires k <= |text|
    ensures Encode(text) == Encode(text[..k]) + Encode(text[k..])
  {
    assert text == text[..k] + text[k..];
    EncodeAppend(text[..k], text[k..]);
  }

  /** Every boundary is the offset of a character. */
  lemma {:induction false} BoundaryIsOffset(text: string, i: nat) returns (k: nat)
    requires IsCharBoundary(Encode(text), i)
    ensures k <= |text| && OffsetOf(text, k) == i
    decreases |text|
  {
    k := 0;
    if i > 0 {
      var first := EncodeChar(text[0]);
      assert i >= |first|;
      var rest := Encode(text[1..]);
      assert i < |first + rest| ==> (first + rest)[i] == rest[i - |first|];
      var j := BoundaryIsOffset(text[1..], i - |first|);
      k := j + 1;
      assert text[..k][1..] == text[1..][..j];
    }
  }

  /** The offset of every character is a boundary. */
  lemma OffsetIsBoundary(text: string, k: nat)
    requires k <= |text|
    ensures IsCharBoundary(Encode(text), OffsetOf(text, k)) && OffsetOf(text, k) <= Size(text)
  {
    EncodeSplit(text, k);
    if k < |text| {
      assert Encode(text[k..])[0] == EncodeChar(text[k])[0];
    }
  }

  /** Offsets grow strictly with the character. */
  lemma OffsetsGrow(text: string, j: nat, k: nat)
    requires j <= k <= |text|
    ensures OffsetOf(text, k) == OffsetOf(text, j) + Size(text[j..k])
    ensures j < k ==> OffsetOf(text, j) < OffsetOf(text, k)
  {
    assert text[..k] == text[..j] + text[j..k];
    SizeAppend(text[..j], text[j..k]);
  }
}

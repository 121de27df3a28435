/**
 * The Borsh wire format for the types the program's instruction uses: a u32
 * written little-endian, and a `String` written as its u32 byte length
 * followed by its UTF-8 bytes.
 */
module Borsh {
  import opened Wrappers
  import opened Solana

  const U32_LIMIT: nat := 0x1_0000_0000

  function Pow256(k: nat): (r: nat)
    ensures r >= 1
  {
    if k == 0 then 1 else 256 * Pow256(k - 1)
  }

  lemma Pow256Four()
    ensures Pow256(4) == U32_LIMIT
  {
    assert Pow256(1) == 256;
    assert Pow256(2) == 65536;
    assert Pow256(3) == 16777216;
  }

  /** `n` written in `k` bytes, least significant first. */
  function LittleEndian(n: nat, k: nat): (r: seq<byte>)
    requires n < Pow256(k)
    ensures |r| == k
  {
    if k == 0 then [] else [n % 256] + LittleEndian(n / 256, k - 1)
  }

  /** The number whose little-endian bytes are `b`. */
  function FromLittleEndian(b: seq<byte>): (n: nat)
    ensures n < Pow256(|b|)
  {
    if b == [] then 0 else b[0] + 256 * FromLittleEndian(b[1..])
  }

  lemma {:induction false} FromLittleEndianOfLittleEndian(n: nat, k: nat)
    requires n < Pow256(k)
    ensures FromLittleEndian(LittleEndian(n, k)) == n
  {
    if k > 0 {
      var r := LittleEndian(n, k);
      assert r[1..] == LittleEndian(n / 256, k - 1);
      FromLittleEndianOfLittleEndian(n / 256, k - 1);
    }
  }

  lemma {:induction false} LittleEndianOfFromLittleEndian(b: seq<byte>)
    ensures LittleEndian(FromLittleEndian(b), |b|) == b
  {
    if b != [] {
      LittleEndianOfFromLittleEndian(b[1..]);
      var n := FromLittleEndian(b);
      assert n % 256 == b[0];
      assert n / 256 == FromLittleEndian(b[1..]);
    }
  }

  // ---------------------------------------------------------------- UTF-8

  predicate IsContinuation(b: byte) {
    0x80 <= b <= 0xBF
  }

  /**
   * The length (1 to 4) of the well-formed UTF-8 sequence that `s` starts
   * with, or 0 when it starts with none: overlong forms, surrogates and
   * code points above U+10FFFF are ill-formed.
   */
  function SequenceLength(s: seq<byte>): (n: nat)
    requires |s| > 0
    ensures n <= 4 && n <= |s|
    ensures n > 0 ==> forall k :: 1 <= k < n ==> IsContinuation(s[k])
  {
    var b0 := s[0];
    if b0 <= 0x7F then 1
    else if 0xC2 <= b0 <= 0xDF then
      if |s| >= 2 && IsContinuation(s[1]) then 2 else 0
    else if 0xE0 <= b0 <= 0xEF then
      var lo := if b0 == 0xE0 then 0xA0 else 0x80;
      var hi := if b0 == 0xED then 0x9F else 0xBF;
      if |s| >= 3 && lo <= s[1] <= hi && IsContinuation(s[2]) then 3 else 0
    else if 0xF0 <= b0 <= 0xF4 then
      var lo := if b0 == 0xF0 then 0x90 else 0x80;
      var hi := if b0 == 0xF4 then 0x8F else 0xBF;
      if |s| >= 4 && lo <= s[1] <= hi && IsContinuation(s[2]) && IsContinuation(s[3]) then 4 else 0
    else 0
  }

  /** The check `String::from_utf8` makes. */
  predicate ValidUtf8(s: seq<byte>)
    decreases |s|
  {
    s == [] || (SequenceLength(s) > 0 && ValidUtf8(s[SequenceLength(s)..]))
  }

  /** The bytes of a Rust `String`. */
  type Utf8 = s: seq<byte> | ValidUtf8(s) witness []

  /** Every ASCII byte string is a valid `String`. */
  lemma {:induction false} AsciiIsUtf8(s: seq<byte>)
    requires forall k :: 0 <= k < |s| ==> s[k] < 0x80
    ensures ValidUtf8(s)
  {
    if s != [] {
      assert SequenceLength(s) == 1;
      AsciiIsUtf8(s[1..]);
    }
  }

  // --------------------------------------------------------------- String

  /** A `String`: its length as a little-endian u32, then its bytes. */
  function EncodeString(s: seq<byte>): (r: seq<byte>)
    requires |s| < U32_LIMIT
    ensures |r| == 4 + |s| && r[4..] == s
  {
    Pow256Four();
    LittleEndian(|s|, 4) + s
  }

  function ParseU32(b: seq<byte>): (r: Option<(nat, seq<byte>)>)
    ensures r.Some? <==> |b| >= 4
    ensures r.Some? ==> r.value.0 < U32_LIMIT && r.value.1 == b[4..]
  {
    Pow256Four();
    if |b| < 4 then None else Some((FromLittleEndian(b[..4]), b[4..]))
  }

  /**
   * Reads one `String` off the front of `b`, returning it and the bytes
   * after it; fails on a short input or on bytes that are not UTF-8.
   */
  function ParseString(b: seq<byte>): (r: Option<(Utf8, seq<byte>)>)
    ensures r.Some? ==> |r.value.1| < |b|
  {
    match ParseU32(b)
    case None => None
    case Some((len, rest)) =>
      if |rest| < len then None
      else if !ValidUtf8(rest[..len]) then None
      else Some((rest[..len], rest[len..]))
  }

  /** Reading back an encoded `String` gives the string and the untouched rest. */
  lemma ParseStringOfEncoded(s: Utf8, rest: seq<byte>)
    requires |s| < U32_LIMIT
    ensures ParseString(EncodeString(s) + rest) == Some((s, rest))
  {
    var b := EncodeString(s) + rest;
    Pow256Four();
    assert b[..4] == LittleEndian(|s|, 4);
    FromLittleEndianOfLittleEndian(|s|, 4);
    assert b[4..][..|s|] == s;
    assert b[4..][|s|..] == rest;
  }

  /** Whatever `ParseString` accepts is exactly an encoded `String` followed by the rest. */
  lemma ParseStringExact(b: seq<byte>)
    requires ParseString(b).Some?
    ensures |ParseString(b).value.0| < U32_LIMIT
    ensures b == EncodeString(ParseString(b).value.0) + ParseString(b).value.1
  {
    var (s, rest) := ParseString(b).value;
    Pow256Four();
    LittleEndianOfFromLittleEndian(b[..4]);
    assert |s| == FromLittleEndian(b[..4]);
    assert LittleEndian(|s|, 4) == b[..4];
    assert b == b[..4] + (b[4..][..|s|] + b[4..][|s|..]);
  }
}

/**
 * Base 32 encoding with the standard alphabet and no padding (section 6 of
 * RFC 4648), as encoding/base32's StdEncoding.WithPadding(NoPadding) produces it:
 * the input bits, most significant first, taken five at a time, the last group
 * filled with zero bits.
 */
module Base32 {
  import opened Wrappers
  import Text

  /** The character of the alphabet "ABCDEFGHIJKLMNOPQRSTUVWXYZ234567" at
      position `v`. */
  function Symbol(v: nat): (c: char)
    requires v < 32
    ensures IsSymbol(c)
  {
    if v < 26 then ('A' as int + v) as char else ('2' as int + v - 26) as char
  }

  predicate IsSymbol(c: char) {
    'A' <= c <= 'Z' || '2' <= c <= '7'
  }

  /** The position of a character in the alphabet. */
  function SymbolValue(c: char): (v: nat)
    requires IsSymbol(c)
    ensures v < 32 && Symbol(v) == c
  {
    if 'A' <= c <= 'Z' then c as int - 'A' as int else c as int - '2' as int + 26
  }

  /** Different positions hold different characters. */
  lemma SymbolValueOfSymbol(v: nat)
    requires v < 32
    ensures SymbolValue(Symbol(v)) == v
  {
  }

  /** The bits of one byte, most significant first. */
  function ByteBits(b: Byte): (r: seq<bool>)
    ensures |r| == 8
  {
    ValueBits(b as int, 8)
  }

  /** The number the bits spell, most significant first. */
  function BitsValue(bits: seq<bool>): (r: nat)
    ensures r < Text.Pow2(|bits|)
  {
    if bits == [] then 0
    else 2 * BitsValue(bits[..|bits| - 1]) + (if bits[|bits| - 1] then 1 else 0)
  }

  /** The bits of a whole input. */
  function Bits(bytes: seq<Byte>): (r: seq<bool>)
    ensures |r| == 8 * |bytes|
  {
    if bytes == [] then [] else ByteBits(bytes[0]) + Bits(bytes[1..])
  }

  /** The bits padded with zeros up to a multiple of five. */
  function PadBits(bits: seq<bool>): (r: seq<bool>)
    ensures |r| % 5 == 0 && |bits| <= |r| < |bits| + 5
    ensures r[..|bits|] == bits
  {
    bits + seq((5 - |bits| % 5) % 5, _ => false)
  }

  /** One character per group of five bits. */
  function EncodeGroups(bits: seq<bool>): (r: string)
    requires |bits| % 5 == 0
    ensures |r| == |bits| / 5
    ensures forall i :: 0 <= i < |r| ==> IsSymbol(r[i])
  {
    if bits == [] then ""
    else [Symbol(BitsValue(bits[..5]))] + EncodeGroups(bits[5..])
  }

  /** base32.StdEncoding.WithPadding(base32.NoPadding).EncodeToString. */
  function EncodeNoPad(bytes: seq<Byte>): (r: string)
    ensures |r| == (8 * |bytes| + 4) / 5
    ensures forall i :: 0 <= i < |r| ==> IsSymbol(r[i])
  {
    EncodeGroups(PadBits(Bits(bytes)))
  }

  // ---- decoding, the partner of EncodeNoPad ----

  /** The `n` low bits of `v`, most significant first. */
  function ValueBits(v: nat, n: nat): (r: seq<bool>)
    ensures |r| == n
  {
    if n == 0 then [] else ValueBits(v / 2, n - 1) + [v % 2 == 1]
  }

  /** The five bits each character stands for. */
  function DecodeGroups(s: string): (r: seq<bool>)
    requires forall i :: 0 <= i < |s| ==> IsSymbol(s[i])
    ensures |r| == 5 * |s|
  {
    if s == [] then [] else ValueBits(SymbolValue(s[0]), 5) + DecodeGroups(s[1..])
  }

  /** The bytes the leading whole octets of the bits spell. */
  function BitsToBytes(bits: seq<bool>): (r: seq<Byte>)
    ensures |r| == |bits| / 8
  {
    if |bits| < 8 then [] else [BitsValue(bits[..8]) as Byte] + BitsToBytes(bits[8..])
  }

  /** Decoding of unpadded text: the trailing fill bits are dropped. */
  function DecodeNoPad(s: string): (r: seq<Byte>)
    requires forall i :: 0 <= i < |s| ==> IsSymbol(s[i])
  {
    BitsToBytes(DecodeGroups(s))
  }

  // ---- the round trip ----

  lemma {:induction false} ValueBitsOfValue(bits: seq<bool>)
    ensures ValueBits(BitsValue(bits), |bits|) == bits
  {
    if bits != [] {
      var front := bits[..|bits| - 1];
      ValueBitsOfValue(front);
      var v := BitsValue(bits);
      assert v / 2 == BitsValue(front);
      assert bits == front + [bits[|bits| - 1]];
    }
  }

  lemma {:induction false} ValueOfValueBits(v: nat, n: nat)
    requires v < Text.Pow2(n)
    ensures BitsValue(ValueBits(v, n)) == v
  {
    if n > 0 {
      ValueOfValueBits(v / 2, n - 1);
      var r := ValueBits(v, n);
      assert r[..|r| - 1] == ValueBits(v / 2, n - 1);
    }
  }

  lemma {:induction false} DecodeEncodeGroups(bits: seq<bool>)
    requires |bits| % 5 == 0
    ensures DecodeGroups(EncodeGroups(bits)) == bits
  {
    if bits != [] {
      var g := bits[..5];
      assert Text.Pow2(5) == 32;
      SymbolValueOfSymbol(BitsValue(g));
      ValueBitsOfValue(g);
      DecodeEncodeGroups(bits[5..]);
      assert bits == g + bits[5..];
    }
  }

  lemma ByteBitsValue(b: Byte)
    ensures BitsValue(ByteBits(b)) == b as int
  {
    assert Text.Pow2(8) == 256;
    ValueOfValueBits(b as int, 8);
  }

  lemma {:induction false} BytesOfBits(bytes: seq<Byte>, tail: seq<bool>)
    requires |tail| < 8
    ensures BitsToBytes(Bits(bytes) + tail) == bytes
  {
    if bytes == [] {
      assert Bits(bytes) + tail == tail;
    } else {
      var all := Bits(bytes) + tail;
      assert all[..8] == ByteBits(bytes[0]);
      assert all[8..] == Bits(bytes[1..]) + tail;
      ByteBitsValue(bytes[0]);
      BytesOfBits(bytes[1..], tail);
      assert bytes == [bytes[0]] + bytes[1..];
    }
  }

  /** Decoding the unpadded encoding gives the bytes back. */
  lemma DecodeEncode(bytes: seq<Byte>)
    ensures DecodeNoPad(EncodeNoPad(bytes)) == bytes
  {
    var bits := Bits(bytes);
    var padded := PadBits(bits);
    DecodeEncodeGroups(padded);
    assert padded == bits + padded[|bits|..];
    BytesOfBits(bytes, padded[|bits|..]);
  }

  /** Sixteen random bytes give a 26-character token. */
  lemma SixteenBytes(bytes: seq<Byte>)
    requires |bytes| == 16
    ensures |EncodeNoPad(bytes)| == 26
  {
  }
}

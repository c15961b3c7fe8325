/** QUIC variable-length integers (section 16 of RFC 9000), and what fits beside them. */
module Varint {
  import opened Capsules

  // ---------- Big-endian numbers ----------

  function Pow256(n: nat): nat { if n == 0 then 1 else 256 * Pow256(n - 1) }

  /** The number that the bytes spell, first byte first. */
  function Number(bs: seq<Byte>): nat {
    if bs == [] then 0 else Number(bs[..|bs| - 1]) * 256 + bs[|bs| - 1]
  }

  function Digits(v: nat, n: nat): (bs: seq<Byte>)
    ensures |bs| == n
  {
    if n == 0 then [] else Digits(v / 256, n - 1) + [v % 256]
  }

  lemma {:induction false} DigitsNumber(v: nat, n: nat)
    requires v < Pow256(n)
    ensures Number(Digits(v, n)) == v
  {
    if n > 0 {
      DigitsNumber(v / 256, n - 1);
      assert Digits(v, n)[..n - 1] == Digits(v / 256, n - 1);
    }
  }

  lemma {:induction false} NumberDigits(bs: seq<Byte>)
    ensures Number(bs) < Pow256(|bs|) && Digits(Number(bs), |bs|) == bs
    decreases |bs|
  {
    if bs != [] {
      NumberDigits(bs[..|bs| - 1]);
      assert Number(bs) / 256 == Number(bs[..|bs| - 1]);
      assert bs == bs[..|bs| - 1] + [bs[|bs| - 1]];
    }
  }

  lemma Powers()
    ensures Pow256(1) == 0x100 && Pow256(2) == 0x1_0000 && Pow256(4) == 0x1_0000_0000
    ensures Pow256(8) == 0x1_0000_0000_0000_0000
  {
    assert Pow256(2) == 256 * Pow256(1) && Pow256(4) == 256 * (256 * Pow256(2));
    assert Pow256(8) == 256 * (256 * (256 * (256 * Pow256(4))));
  }

  // ---------- The encoding ----------

  /** The two high bits of the first byte give the length: 1, 2, 4 or 8. */
  function LengthOf(first: Byte): nat {
    if first < 0x40 then 1 else if first < 0x80 then 2 else if first < 0xC0 then 4 else 8
  }

  /** What the length bits add to the number the bytes spell. */
  function Tag(n: nat): nat {
    if n == 1 then 0 else if n == 2 then 0x4000 else if n == 4 then 0x8000_0000 else 0xC000_0000_0000_0000
  }

  /** The largest value of an encoding of `n` bytes, plus one. */
  function Room(n: nat): nat {
    if n == 1 then 0x40 else if n == 2 then 0x4000 else if n == 4 then 0x4000_0000 else MAX_VARINT + 1
  }

  predicate IsLength(n: nat) { n == 1 || n == 2 || n == 4 || n == 8 }

  /** The shortest length whose room holds the value. */
  function VarintLength(v: nat): (n: nat)
    ensures IsLength(n)
    ensures v <= MAX_VARINT ==> v < Room(n) && forall m :: IsLength(m) && v < Room(m) ==> n <= m
  {
    if v <= 63 then 1 else if v <= 16383 then 2 else if v <= 1073741823 then 4 else 8
  }

  function EncodeAs(v: nat, n: nat): (bs: seq<Byte>)
    requires IsLength(n) && v < Room(n)
    ensures |bs| == n
  {
    Digits(Tag(n) + v, n)
  }

  function Encoded(v: nat): (bs: seq<Byte>)
    requires v <= MAX_VARINT
    ensures |bs| == VarintLength(v)
  {
    EncodeAs(v, VarintLength(v))
  }

  /** The value at the front of `s` and its length, if `s` holds all of it. */
  function Decoded(s: seq<Byte>): (r: Option<(nat, nat)>)
    ensures r.Some? ==> IsLength(r.value.1) && r.value.1 <= |s| && r.value.1 == LengthOf(s[0]) && r.value.0 <= MAX_VARINT
  {
    if s == [] || |s| < LengthOf(s[0]) then None
    else
      FirstByteTags(s[..LengthOf(s[0])]);
      Some((Number(s[..LengthOf(s[0])]) - Tag(LengthOf(s[0])), LengthOf(s[0])))
  }

  /** The number spelled, without the length bits. */
  lemma FirstByteTags(bs: seq<Byte>)
    requires bs != [] && |bs| == LengthOf(bs[0])
    ensures Tag(|bs|) <= Number(bs) < Tag(|bs|) + Room(|bs|)
  {
    var b := bs[0];
    FirstDigit(bs);
    Powers();
    assert Pow256(0) == 1 && Pow256(3) == 0x100_0000 && Pow256(7) == 0x100_0000_0000_0000 by {
      assert Pow256(3) == 256 * Pow256(2) && Pow256(7) * 256 == Pow256(8);
    }
  }

  lemma {:induction false} FirstDigit(bs: seq<Byte>)
    requires bs != []
    ensures bs[0] * Pow256(|bs| - 1) <= Number(bs) < (bs[0] + 1) * Pow256(|bs| - 1)
    decreases |bs|
  {
    if |bs| == 1 {
      assert Number(bs) == Number(bs[..0]) * 256 + bs[0];
    } else {
      var init := bs[..|bs| - 1];
      FirstDigit(init);
      var n, p := Number(init), Pow256(|init| - 1);
      var b: int := bs[0];
      assert Pow256(|bs| - 1) == 256 * p;
      assert n + 1 <= (b + 1) * p;
      assert b * (256 * p) == b * p * 256 && (b + 1) * (256 * p) == (b + 1) * p * 256;
    }
  }

  lemma EncodedTags(v: nat, n: nat)
    requires IsLength(n) && v < Room(n)
    ensures EncodeAs(v, n) != [] && LengthOf(EncodeAs(v, n)[0]) == n
    ensures Number(EncodeAs(v, n)) == Tag(n) + v
  {
    Powers();
    DigitsNumber(Tag(n) + v, n);
    FirstDigit(EncodeAs(v, n));
    assert Pow256(0) == 1 && Pow256(3) == 0x100_0000 && Pow256(7) == 0x100_0000_0000_0000 by {
      assert Pow256(3) == 256 * Pow256(2) && Pow256(7) * 256 == Pow256(8);
    }
  }

  /** Decoding inverts every encoding, whatever follows it. */
  lemma DecodeEncodeAs(v: nat, n: nat, s: seq<Byte>)
    requires IsLength(n) && v < Room(n)
    ensures Decoded(EncodeAs(v, n) + s) == Some((v, n))
  {
    EncodedTags(v, n);
    assert (EncodeAs(v, n) + s)[..n] == EncodeAs(v, n);
  }

  lemma RoundTrip(v: nat, s: seq<Byte>)
    requires v <= MAX_VARINT
    ensures Decoded(Encoded(v) + s) == Some((v, |Encoded(v)|))
  {
    DecodeEncodeAs(v, VarintLength(v), s);
  }

  /** Encoding inverts decoding, up to the length chosen; no decodable form is shorter than ours. */
  lemma DecodeThenEncode(s: seq<Byte>)
    requires Decoded(s).Some?
    ensures var (v, n) := Decoded(s).value; v < Room(n) && s[..n] == EncodeAs(v, n) && VarintLength(v) <= n
    ensures var (v, n) := Decoded(s).value; n == VarintLength(v) ==> s[..n] == Encoded(v)
  {
    var n := Decoded(s).value.1;
    FirstByteTags(s[..n]);
    NumberDigits(s[..n]);
  }

  /** More input never changes what was decoded. */
  lemma DecodedIsStable(s: seq<Byte>, t: seq<Byte>)
    requires Decoded(s).Some?
    ensures Decoded(s + t) == Decoded(s)
  {
    assert (s + t)[..LengthOf(s[0])] == s[..LengthOf(s[0])];
  }

  // ---------- The procedures ----------

  /** Shifting right by `k` whole bytes. */
  function Shift(v: nat, k: nat): nat { if k == 0 then v else Shift(v / 256, k - 1) }

  lemma {:induction false} ShiftOnce(v: nat, k: nat)
    ensures Shift(v, k) / 256 == Shift(v, k + 1)
  {
    if k > 0 { ShiftOnce(v / 256, k - 1); }
  }

  /** Digit by digit, last first. */
  lemma NextDigit(v: nat, k: nat, n: nat)
    requires n > 0
    ensures Digits(Shift(v, k), n) == Digits(Shift(v, k + 1), n - 1) + [Shift(v, k) % 256]
  {
    ShiftOnce(v, k);
  }

  lemma AddWhole(m: nat, v: nat)
    ensures (m * 256 + v) / 256 == m + v / 256 && (m * 256 + v) % 256 == v % 256
  {
  }

  lemma AddTag(t: nat, v: nat, n: nat)
    requires n > 1
    ensures var w := t * Pow256(n - 1) + v; w / 256 == t * Pow256(n - 2) + v / 256 && w % 256 == v % 256
  {
    var p := Pow256(n - 2);
    assert t * (256 * p) == t * p * 256;
    AddWhole(t * p, v);
  }

  /** The length bits leave the low six bits of the first byte alone. */
  lemma HighByte(t: nat, d: nat)
    requires d < 0x40 && t <= 0xC0
    ensures (t + d % 256) % 256 == d + t
  {
  }

  /** The length bits reach only the first byte. */
  lemma {:induction false} TaggedDigits(t: nat, v: nat, n: nat)
    requires n > 0
    ensures Digits(t * Pow256(n - 1) + v, n) == [(t + Digits(v, n)[0]) % 256] + Digits(v, n)[1..]
  {
    var w := t * Pow256(n - 1) + v;
    if n == 1 {
      assert Digits(w / 256, 0) == [] && Digits(v / 256, 0) == [];
      assert w == t + v;
    } else {
      AddTag(t, v, n);
      TaggedDigits(t, v / 256, n - 1);
      hide Pow256;
      assert Digits(v, n)[1..] == Digits(v / 256, n - 1)[1..] + [v % 256];
    }
  }

  /** The value shifted by `k` bytes has nothing left above `n - k` bytes. */
  lemma {:induction false} FirstShift(v: nat, k: nat, top: nat)
    requires v < top * Pow256(k)
    ensures Shift(v, k) < top
  {
    if k > 0 {
      assert top * (256 * Pow256(k - 1)) == top * Pow256(k - 1) * 256;
      assert v / 256 < top * Pow256(k - 1);
      FirstShift(v / 256, k - 1, top);
    }
  }

  lemma FourDigits(v: nat, k: nat)
    ensures Digits(Shift(v, k), 4)
         == [Shift(v, k + 3) % 256, Shift(v, k + 2) % 256, Shift(v, k + 1) % 256, Shift(v, k) % 256]
  {
    NextDigit(v, k, 4);
    NextDigit(v, k + 1, 3);
    NextDigit(v, k + 2, 2);
    NextDigit(v, k + 3, 1);
  }

  lemma Pow256Odd()
    ensures Pow256(0) == 1 && Pow256(1) == 0x100 && Pow256(3) == 0x100_0000 && Pow256(7) == 0x100_0000_0000_0000
  {
    Powers();
    assert Pow256(4) == 256 * Pow256(3) && Pow256(8) == 256 * Pow256(7);
  }

  /** Too large a value is an error of the caller. */
  method Encode(value: nat) returns (result: Option<seq<Byte>>)
    ensures result == if value <= MAX_VARINT then Some(Encoded(value)) else None
  {
    if value > MAX_VARINT {
      return None;
    }
    var bytes: seq<Byte> := [];
    if value < 64 {
      assert Digits(value / 256, 0) == [];
      bytes := bytes + [value];
    } else if value < 16384 {
      bytes := EncodeTwo(value);
    } else if value < 1073741824 {
      bytes := EncodeFour(value);
    } else {
      bytes := EncodeEight(value);
    }
    return Some(bytes);
  }

  method EncodeTwo(value: nat) returns (bytes: seq<Byte>)
    requires 64 <= value < 16384
    ensures bytes == Encoded(value)
  {
    Pow256Odd();
    FirstShift(value, 1, 0x40);
    bytes := [Shift(value, 1) + 0x40];
    bytes := bytes + [value % 0x100];
    NextDigit(value, 0, 2);
    NextDigit(value, 1, 1);
    TaggedDigits(0x40, value, 2);
  }

  method EncodeFour(value: nat) returns (bytes: seq<Byte>)
    requires 16384 <= value < 1073741824
    ensures bytes == Encoded(value)
  {
    Pow256Odd();
    FirstShift(value, 3, 0x40);
    HighByte(0x80, Shift(value, 3));
    hide Digits, Shift, Pow256;
    bytes := [Shift(value, 3) + 0x80];
    bytes := bytes + [Shift(value, 2) % 0x100];
    bytes := bytes + [Shift(value, 1) % 0x100];
    bytes := bytes + [Shift(value, 0) % 0x100];
    FourDigits(value, 0);
    ShiftNone(value);
    TaggedDigits(0x80, value, 4);
  }

  lemma ShiftNone(v: nat)
    ensures Shift(v, 0) == v
  {
  }

  lemma EightDigits(v: nat)
    ensures Digits(v, 8) == [Shift(v, 7) % 256, Shift(v, 6) % 256, Shift(v, 5) % 256, Shift(v, 4) % 256,
                             Shift(v, 3) % 256, Shift(v, 2) % 256, Shift(v, 1) % 256, Shift(v, 0) % 256]
  {
    ShiftNone(v);
    FourDigits(v, 4);
    NextDigit(v, 3, 5);
    NextDigit(v, 2, 6);
    NextDigit(v, 1, 7);
    NextDigit(v, 0, 8);
    hide Digits, Shift;
  }

  method EncodeEight(value: nat) returns (bytes: seq<Byte>)
    requires 1073741824 <= value <= MAX_VARINT
    ensures bytes == Encoded(value)
  {
    Pow256Odd();
    FirstShift(value, 7, 0x40);
    HighByte(0xC0, Shift(value, 7));
    hide Digits, Shift, Pow256;
    bytes := [Shift(value, 7) + 0xC0];
    bytes := bytes + [Shift(value, 6) % 0x100];
    bytes := bytes + [Shift(value, 5) % 0x100];
    bytes := bytes + [Shift(value, 4) % 0x100];
    bytes := bytes + [Shift(value, 3) % 0x100];
    bytes := bytes + [Shift(value, 2) % 0x100];
    bytes := bytes + [Shift(value, 1) % 0x100];
    bytes := bytes + [Shift(value, 0) % 0x100];
    EightDigits(value);
    TaggedDigits(0xC0, value, 8);
  }

  method Decode(data: seq<Byte>) returns (result: Option<(nat, nat)>)
    ensures result == Decoded(data)
  {
    if |data| == 0 {
      return None;
    }
    var prefix := data[0] / 0x40;
    var length := if prefix == 0 then 1 else if prefix == 1 then 2 else if prefix == 2 then 4 else 8;
    assert length == LengthOf(data[0]);
    if |data| < length {
      return None;
    }
    var value: nat := data[0] % 0x40;
    var i := 1;
    ghost var tag := prefix * 0x40;
    FirstTag(data[0]);
    assert data[..1][..0] == [] && data[..1][0] == data[0];
    assert Number(data[..1]) == data[0];
    while i < length
      invariant 1 <= i <= length
      invariant Number(data[..i]) == tag * Pow256(i - 1) + value
    {
      assert data[..i + 1][..i] == data[..i];
      assert tag * Pow256(i - 1) * 256 == tag * Pow256(i);
      value := value * 256 + data[i];
      i := i + 1;
    }
    TagOfLength(data[0]);
    return Some((value, length));
  }

  lemma FirstTag(b: Byte)
    ensures b / 0x40 * 0x40 + b % 0x40 == b
  {
  }

  lemma TagOfLength(b: Byte)
    ensures b / 0x40 * 0x40 * Pow256(LengthOf(b) - 1) == Tag(LengthOf(b))
  {
    Powers();
    assert Pow256(0) == 1 && Pow256(3) == 0x100_0000 && Pow256(7) == 0x100_0000_0000_0000 by {
      assert Pow256(3) == 256 * Pow256(2) && Pow256(7) * 256 == Pow256(8);
    }
  }

  // ---------- The reason of a CONNECTION_CLOSE ----------

  /** The largest QMux record. */
  const MAX_RECORD: nat := 16382

  /** Type, error code, reason length and reason of a CONNECTION_CLOSE fill that many bytes. */
  function CloseFrameLength(errorCode: nat, reason: nat): nat {
    1 + VarintLength(errorCode) + VarintLength(reason) + reason
  }

  /** The limit is exact: the longest reason that fits a record. */
  method ConnectionCloseReasonLimit(errorCode: nat) returns (limit: nat)
    ensures forall reason: nat :: CloseFrameLength(errorCode, reason) <= MAX_RECORD <==> reason <= limit
  {
    limit := MAX_RECORD - 1 - VarintLength(errorCode);
    limit := limit - VarintLength(limit);
  }
}

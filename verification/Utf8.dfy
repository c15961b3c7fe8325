/**
 * UTF-8 as the bindings check and cut it. Well-formed text is defined twice, by the byte
 * patterns of section 4 of RFC 3629 and as encoded code points of its section 3; the check
 * accepts exactly that, and the three ways of cutting text agree on it.
 */
module Utf8 {
  import opened Capsules

  // ---------- Section 4: byte patterns ----------

  predicate IsTail(b: Byte) { 0x80 <= b <= 0xBF }

  predicate SecondFits(lead: Byte, second: Byte) {
    IsTail(second)
    && (lead == 0xE0 ==> second >= 0xA0) && (lead == 0xED ==> second <= 0x9F)
    && (lead == 0xF0 ==> second >= 0x90) && (lead == 0xF4 ==> second <= 0x8F)
  }

  /** Bytes a lead byte announces, itself included; 0 if it leads nothing. */
  function Announces(lead: Byte): nat {
    if lead <= 0x7F then 1
    else if 0xC2 <= lead <= 0xDF then 2
    else if 0xE0 <= lead <= 0xEF then 3
    else if 0xF0 <= lead <= 0xF4 then 4
    else 0
  }

  /** The length of the character at the front of `s`, or 0 if there is none. */
  function CharLen(s: seq<Byte>): (n: nat)
    ensures n <= 4 && n <= |s|
    ensures n > 0 ==> n == Announces(s[0]) && !IsTail(s[0]) && forall i :: 1 <= i < n ==> IsTail(s[i])
  {
    if s == [] then 0
    else
      var n := Announces(s[0]);
      if n == 0 || |s| < n then 0
      else if n >= 2 && !SecondFits(s[0], s[1]) then 0
      else if n >= 3 && !IsTail(s[2]) then 0
      else if n == 4 && !IsTail(s[3]) then 0
      else n
  }

  predicate WellFormed(s: seq<Byte>)
    decreases |s|
  {
    s == [] || (CharLen(s) > 0 && WellFormed(s[CharLen(s)..]))
  }

  // ---------- Section 3: code points ----------

  type Scalar = c: int | 0 <= c <= 0x10FFFF && !(0xD800 <= c <= 0xDFFF)

  function Encode(c: Scalar): seq<Byte> {
    if c < 0x80 then [c]
    else if c < 0x800 then [0xC0 + c / 0x40, 0x80 + c % 0x40]
    else if c < 0x1_0000 then [0xE0 + c / 0x1000, 0x80 + c / 0x40 % 0x40, 0x80 + c % 0x40]
    else [0xF0 + c / 0x4_0000, 0x80 + c / 0x1000 % 0x40, 0x80 + c / 0x40 % 0x40, 0x80 + c % 0x40]
  }

  function EncodeAll(cs: seq<Scalar>): seq<Byte> {
    if cs == [] then [] else Encode(cs[0]) + EncodeAll(cs[1..])
  }

  lemma EncodeIsChar(c: Scalar, t: seq<Byte>)
    ensures CharLen(Encode(c) + t) == |Encode(c)|
  {
    var s := Encode(c) + t;
    assert forall i :: 0 <= i < |Encode(c)| ==> s[i] == Encode(c)[i];
  }

  /** The code point that a character of the patterns stands for. */
  function CodePoint(s: seq<Byte>): (c: Scalar)
    requires CharLen(s) > 0
    ensures s[..CharLen(s)] == Encode(c)
  {
    match CharLen(s)
    case 1 => s[0]
    case 2 => TwoBytes(s[0], s[1])
    case 3 => ThreeBytes(s[0], s[1], s[2])
    case _ => FourBytes(s[0], s[1], s[2], s[3])
  }

  function TwoBytes(a: Byte, b: Byte): (c: Scalar)
    requires Announces(a) == 2 && IsTail(b)
    ensures Encode(c) == [a, b]
  {
    var hi: int, lo: int := a - 0xC0, b - 0x80;
    hi * 0x40 + lo
  }

  function ThreeBytes(a: Byte, b: Byte, d: Byte): (c: Scalar)
    requires Announces(a) == 3 && SecondFits(a, b) && IsTail(d)
    ensures Encode(c) == [a, b, d]
  {
    var hi: int, mid: int, lo: int := a - 0xE0, b - 0x80, d - 0x80;
    var c := hi * 0x1000 + mid * 0x40 + lo;
    assert c / 0x1000 == hi && c / 0x40 == hi * 0x40 + mid;
    c
  }

  lemma LastDigit(m: nat, d: nat)
    requires d < 0x40
    ensures (m * 0x40 + d) / 0x40 == m && (m * 0x40 + d) % 0x40 == d
  {
  }

  /** The four base-64 digits of a large code point. */
  lemma EncodeFour(hi: nat, mid: nat, low: nat, lo: nat)
    requires hi <= 4 && mid < 0x40 && low < 0x40 && lo < 0x40
    requires hi == 0 ==> mid >= 0x10
    requires hi == 4 ==> mid < 0x10
    ensures var c := ((hi * 0x40 + mid) * 0x40 + low) * 0x40 + lo;
            0x1_0000 <= c <= 0x10FFFF && Encode(c) == [0xF0 + hi, 0x80 + mid, 0x80 + low, 0x80 + lo]
  {
    var x := hi * 0x40 + mid;
    var y := x * 0x40 + low;
    var c := y * 0x40 + lo;
    LastDigit(hi, mid);
    LastDigit(x, low);
    LastDigit(y, lo);
    assert c / 0x1000 == c / 0x40 / 0x40 && c / 0x4_0000 == c / 0x40 / 0x40 / 0x40;
  }

  function FourBytes(a: Byte, b: Byte, d: Byte, e: Byte): (c: Scalar)
    requires Announces(a) == 4 && SecondFits(a, b) && IsTail(d) && IsTail(e)
    ensures Encode(c) == [a, b, d, e]
  {
    var hi: int, mid: int, low: int, lo: int := a - 0xF0, b - 0x80, d - 0x80, e - 0x80;
    EncodeFour(hi, mid, low, lo);
    ((hi * 0x40 + mid) * 0x40 + low) * 0x40 + lo
  }

  lemma {:induction false} EncodedIsWellFormed(cs: seq<Scalar>)
    ensures WellFormed(EncodeAll(cs))
  {
    if cs != [] {
      EncodeIsChar(cs[0], EncodeAll(cs[1..]));
      EncodedIsWellFormed(cs[1..]);
      assert EncodeAll(cs)[|Encode(cs[0])|..] == EncodeAll(cs[1..]);
    }
  }

  function CodePoints(s: seq<Byte>): (cs: seq<Scalar>)
    requires WellFormed(s)
    ensures EncodeAll(cs) == s
    decreases |s|
  {
    if s == [] then []
    else
      assert s == s[..CharLen(s)] + s[CharLen(s)..];
      [CodePoint(s)] + CodePoints(s[CharLen(s)..])
  }

  /** The two sections of RFC 3629 describe the same byte strings. */
  lemma WellFormedIsEncoded(s: seq<Byte>)
    ensures WellFormed(s) <==> exists cs: seq<Scalar> :: EncodeAll(cs) == s
  {
    if WellFormed(s) { assert EncodeAll(CodePoints(s)) == s; }
    if cs: seq<Scalar> :| EncodeAll(cs) == s { EncodedIsWellFormed(cs); }
  }

  // ---------- The check ----------

  /** What the check reads off a lead byte: trailing bytes, least code point, first bits. */
  predicate LeadBits(b: Byte, extra: nat, least: nat, bits: nat) {
    || (0xC0 <= b < 0xE0 && extra == 1 && least == 0x80 && bits == b - 0xC0)
    || (0xE0 <= b < 0xF0 && extra == 2 && least == 0x800 && bits == b - 0xE0)
    || (0xF0 <= b < 0xF8 && extra == 3 && least == 0x1_0000 && bits == b - 0xF0)
  }

  /** `bits` followed by the six low bits of each of the next `k` bytes. */
  function Gathered(s: seq<Byte>, bits: nat, k: nat): nat
    requires k < |s|
  {
    if k == 0 then bits else Gathered(s, bits, k - 1) * 64 + s[k] % 64
  }

  /** The arithmetic of the check decides exactly the byte patterns. */
  lemma CheckIsPattern(s: seq<Byte>, extra: nat, least: nat, bits: nat)
    requires s != [] && LeadBits(s[0], extra, least, bits) && 1 + extra <= |s|
    ensures CharLen(s) > 0 <==>
              (forall i :: 1 <= i <= extra ==> IsTail(s[i]))
              && least <= Gathered(s, bits, extra) && InRange(Gathered(s, bits, extra))
    ensures CharLen(s) > 0 ==> CharLen(s) == 1 + extra
  {
    if extra == 1 { CheckTwo(s, bits); } else if extra == 2 { CheckThree(s, bits); } else { CheckFour(s, bits); }
    hide CharLen, Gathered;
  }

  predicate InRange(c: nat) { c <= 0x10FFFF && !(0xD800 <= c <= 0xDFFF) }

  lemma CheckTwo(s: seq<Byte>, bits: nat)
    requires |s| >= 2 && LeadBits(s[0], 1, 0x80, bits)
    ensures CharLen(s) == if IsTail(s[1]) && 0x80 <= Gathered(s, bits, 1) && InRange(Gathered(s, bits, 1)) then 2 else 0
  {
    assert Gathered(s, bits, 1) == bits * 64 + s[1] % 64;
  }

  lemma CheckThree(s: seq<Byte>, bits: nat)
    requires |s| >= 3 && LeadBits(s[0], 2, 0x800, bits)
    ensures CharLen(s) == if IsTail(s[1]) && IsTail(s[2]) && 0x800 <= Gathered(s, bits, 2) && InRange(Gathered(s, bits, 2)) then 3 else 0
  {
    assert Gathered(s, bits, 1) == bits * 64 + s[1] % 64;
    assert Gathered(s, bits, 2) == Gathered(s, bits, 1) * 64 + s[2] % 64;
  }

  lemma CheckFour(s: seq<Byte>, bits: nat)
    requires |s| >= 4 && LeadBits(s[0], 3, 0x1_0000, bits)
    ensures CharLen(s) == if IsTail(s[1]) && IsTail(s[2]) && IsTail(s[3])
                             && 0x1_0000 <= Gathered(s, bits, 3) && InRange(Gathered(s, bits, 3)) then 4 else 0
  {
    assert Gathered(s, bits, 1) == bits * 64 + s[1] % 64;
    assert Gathered(s, bits, 2) == Gathered(s, bits, 1) * 64 + s[2] % 64;
    assert Gathered(s, bits, 3) == Gathered(s, bits, 2) * 64 + s[3] % 64;
  }

  method ReadLead(b: Byte) returns (extra: nat, least: nat, bits: nat)
    requires b > 0x7F
    ensures if extra == 0 then Announces(b) == 0 else LeadBits(b, extra, least, bits)
  {
    if b / 0x20 == 0x6 {
      return 1, 0x80, b % 0x20;
    } else if b / 0x10 == 0xE {
      return 2, 0x800, b % 0x10;
    } else if b / 8 == 0x1E {
      return 3, 0x1_0000, b % 8;
    } else {
      return 0, 0, 0;
    }
  }

  /** The length of the character at `offset`, or 0. */
  method CharacterAt(data: seq<Byte>, offset: nat) returns (n: nat)
    requires offset < |data|
    ensures n == CharLen(data[offset..])
  {
    ghost var s := data[offset..];
    if data[offset] <= 0x7F {
      return 1;
    }
    var extra, least, codepoint := ReadLead(data[offset]);
    if extra == 0 {
      return 0;
    }
    ghost var bits := codepoint;
    if offset + 1 + extra > |data| {
      return 0;
    }
    CheckIsPattern(s, extra, least, bits);
    hide CharLen;
    var index := 1;
    while index <= extra
      invariant 1 <= index <= extra + 1
      invariant forall i :: 1 <= i < index ==> IsTail(s[i])
      invariant codepoint == Gathered(s, bits, index - 1)
    {
      if data[offset + index] / 0x40 != 2 {
        assert !IsTail(s[index]);
        return 0;
      }
      codepoint := codepoint * 64 + data[offset + index] % 64;
      index := index + 1;
    }
    if codepoint < least || codepoint > 0x10FFFF || (codepoint >= 0xD800 && codepoint <= 0xDFFF) {
      return 0;
    }
    return 1 + extra;
  }

  method IsValidUtf8(data: seq<Byte>) returns (valid: bool)
    ensures valid <==> WellFormed(data)
  {
    hide CharLen;
    var offset := 0;
    while offset < |data|
      invariant 0 <= offset <= |data|
      invariant WellFormed(data) <==> WellFormed(data[offset..])
    {
      var n := CharacterAt(data, offset);
      if n == 0 {
        return false;
      }
      assert data[offset..][n..] == data[offset + n..];
      offset := offset + n;
    }
    return true;
  }

  // ---------- Cutting ----------

  /** `k` is the length of the longest well-formed prefix within `limit` bytes. */
  ghost predicate LongestCut(s: seq<Byte>, limit: nat, k: nat) {
    && k <= limit && k <= |s| && WellFormed(s[..k])
    && forall j :: k < j <= limit && j <= |s| ==> !WellFormed(s[..j])
  }

  /** Backing up from `k` bytes, one at a time, until what is left is well-formed. */
  function Retreat(s: seq<Byte>, k: nat): (r: nat)
    requires k <= |s|
    ensures r <= k && WellFormed(s[..r])
  {
    if k == 0 || WellFormed(s[..k]) then k else Retreat(s, k - 1)
  }

  /** At most `limit` bytes of `s`, and nothing that is not a whole character. */
  function Cut(s: seq<Byte>, limit: nat): (r: seq<Byte>)
    ensures |r| <= limit && WellFormed(r) && r <= s
  {
    s[..Retreat(s, Min(|s|, limit))]
  }

  lemma {:induction false} RetreatIsLongest(s: seq<Byte>, k: nat, j: nat)
    requires Retreat.requires(s, k) && j <= k && WellFormed(s[..j])
    ensures j <= Retreat(s, k)
    decreases k
  {
    hide WellFormed;
    if k > 0 && !WellFormed(s[..k]) { RetreatIsLongest(s, k - 1, j); }
  }

  /** There is one longest cut, and `Cut` makes it. */
  lemma CutIsLongest(s: seq<Byte>, limit: nat, k: nat)
    ensures LongestCut(s, limit, k) <==> k == |Cut(s, limit)|
  {
    hide WellFormed;
    forall j: nat | j <= limit && j <= |s| && WellFormed(s[..j]) ensures j <= |Cut(s, limit)| {
      RetreatIsLongest(s, Min(|s|, limit), j);
    }
    assert s[..|Cut(s, limit)|] == Cut(s, limit);
  }

  /** The whole characters at the front of `s` that fit. */
  function Chop(s: seq<Byte>, limit: nat): (k: nat)
    requires WellFormed(s)
    ensures k <= limit && k <= |s|
    decreases |s|
  {
    if s == [] || CharLen(s) > limit then 0 else CharLen(s) + Chop(s[CharLen(s)..], limit - CharLen(s))
  }

  lemma CharLenOfPrefix(s: seq<Byte>, k: nat)
    requires k <= |s| && CharLen(s) > 0
    ensures CharLen(s[..k]) == if CharLen(s) <= k then CharLen(s) else 0
  {
  }

  /** A cut inside the first character leaves nothing well-formed; a later cut leaves that character. */
  lemma CutAfterFirst(s: seq<Byte>, j: nat)
    requires CharLen(s) > 0 && j <= |s|
    ensures 0 < j < CharLen(s) ==> !WellFormed(s[..j])
    ensures CharLen(s) <= j ==> (WellFormed(s[..j]) <==> WellFormed(s[CharLen(s)..][..j - CharLen(s)]))
  {
    CharLenOfPrefix(s, j);
    if CharLen(s) <= j { assert s[..j][CharLen(s)..] == s[CharLen(s)..][..j - CharLen(s)]; }
    hide CharLen;
  }

  lemma {:induction false} PrefixWellFormed(s: seq<Byte>, limit: nat, j: nat)
    requires WellFormed(s) && j <= |s| && j <= limit
    ensures WellFormed(s[..Chop(s, limit)])
    ensures j > Chop(s, limit) ==> !WellFormed(s[..j])
    decreases |s|
  {
    if s != [] {
      var n := CharLen(s);
      CutAfterFirst(s, j);
      if n <= limit {
        CutAfterFirst(s, Chop(s, limit));
        hide CharLen;
        PrefixWellFormed(s[n..], limit - n, if j >= n then j - n else 0);
      }
    }
  }

  lemma ChopIsLongest(s: seq<Byte>, limit: nat)
    requires WellFormed(s)
    ensures LongestCut(s, limit, Chop(s, limit))
  {
    PrefixWellFormed(s, limit, 0);
    forall j | Chop(s, limit) < j <= limit && j <= |s| ensures !WellFormed(s[..j]) {
      PrefixWellFormed(s, limit, j);
    }
  }

  /** Whatever finds the longest well-formed prefix of well-formed text finds the whole characters that fit. */
  lemma CutsAgree(s: seq<Byte>, limit: nat, k: nat)
    requires WellFormed(s) && LongestCut(s, limit, k)
    ensures k == Chop(s, limit)
  {
    ChopIsLongest(s, limit);
  }

  /** Where the last character begins that starts within the first `limit` bytes. */
  lemma {:induction false} LastLead(s: seq<Byte>, limit: nat) returns (j: nat)
    requires WellFormed(s) && 0 < limit <= |s|
    ensures j < limit <= j + CharLen(s[j..]) && CharLen(s[j..]) > 0
    ensures Chop(s, limit) == if j + CharLen(s[j..]) == limit then limit else j
    decreases |s|
  {
    var n := CharLen(s);
    if limit <= n {
      j := 0;
      assert s[0..] == s;
      if limit == n { assert Chop(s[n..], 0) == 0; }
    } else {
      var i := LastLead(s[n..], limit - n);
      j := n + i;
      assert s[n..][i..] == s[j..];
    }
  }

  /** On well-formed text a cut loses at most three bytes to the character it would split. */
  lemma LosesAtMostThree(s: seq<Byte>, limit: nat)
    requires WellFormed(s)
    ensures limit <= |s| ==> limit - Chop(s, limit) <= 3
    ensures |s| <= limit ==> Chop(s, limit) == |s|
  {
    if 0 < limit <= |s| { var j := LastLead(s, limit); }
    if |s| <= limit { ChopAll(s, limit); }
  }

  lemma {:induction false} ChopAll(s: seq<Byte>, limit: nat)
    requires WellFormed(s) && |s| <= limit
    ensures Chop(s, limit) == |s|
    decreases |s|
  {
    if s != [] { ChopAll(s[CharLen(s)..], limit - CharLen(s)); }
  }

  /** webtransport_h2 and webtransport_h3: back up byte by byte until what is left is valid. */
  method RetreatUntilValid(message: seq<Byte>, limit: nat) returns (length: nat)
    ensures LongestCut(message, limit, length)
  {
    length := if |message| < limit then |message| else limit;
    while length > 0
      invariant length <= limit && length <= |message|
      invariant forall j :: length < j <= limit && j <= |message| ==> !WellFormed(message[..j])
    {
      var valid := IsValidUtf8(message[..length]);
      if valid {
        return;
      }
      length := length - 1;
    }
  }

  /** The length that a lead byte's high bits alone announce; 0 for none. */
  function ByHighBits(lead: Byte): nat {
    if lead / 0x80 == 0 then 1
    else if lead / 0x20 == 0x6 then 2
    else if lead / 0x10 == 0xE then 3
    else if lead / 8 == 0x1E then 4
    else 0
  }

  /** The last lead byte before a cut, with the trailing bytes behind it. */
  lemma CutPoint(s: seq<Byte>, limit: nat) returns (j: nat)
    requires WellFormed(s) && 0 < limit < |s|
    ensures j < limit <= j + ByHighBits(s[j]) && ByHighBits(s[j]) <= 4
    ensures s[j] / 0x40 != 2 && forall i :: j < i < limit ==> IsTail(s[i])
    ensures Chop(s, limit) == if j + ByHighBits(s[j]) == limit then limit else j
  {
    j := LastLead(s, limit);
    var c := s[j..];
    assert s[j] == c[0];
    assert forall i :: j < i < limit ==> s[i] == c[i - j];
  }

  /** qmux: drop the last character if the cut split it, looking back at most three bytes. */
  method TruncateUtf8(text: seq<Byte>, limit: nat) returns (value: seq<Byte>)
    ensures WellFormed(text) ==> value == text[..Chop(text, limit)]
    ensures |text| > limit ==> value <= text && |value| <= limit
  {
    if WellFormed(text) { LosesAtMostThree(text, limit); }
    hide WellFormed, Chop;
    value := text;
    if |value| <= limit {
      return;
    }
    value := value[..limit];
    var cursor := |value|;
    ghost var j := 0;
    if WellFormed(text) && limit > 0 { j := CutPoint(text, limit); }
    var lowerBound := if cursor > 3 then cursor - 3 else 0;
    var head := cursor;
    while head > lowerBound && value[head - 1] / 0x40 == 2
      invariant lowerBound <= head <= cursor
      invariant WellFormed(text) && limit > 0 ==> head > j
    {
      head := head - 1;
    }
    assert WellFormed(text) && limit > 0 ==> head == j + 1;
    if head == 0 {
      return;
    }
    var expected := ByHighBits(value[head - 1]);
    if expected != 0 && head - 1 + expected > cursor {
      value := value[..head - 1];
    }
  }

  /** quic: the same for verification errors, looking back over all trailing bytes. */
  method TruncateVerifyMessage(message: seq<Byte>, limit: nat) returns (text: seq<Byte>)
    ensures WellFormed(message) ==> text == message[..Chop(message, limit)]
    ensures |message| > limit ==> text <= message && |text| <= limit
  {
    if WellFormed(message) { LosesAtMostThree(message, limit); }
    hide WellFormed, Chop;
    text := message;
    if |text| <= limit {
      return;
    }
    text := text[..limit];
    var original := |text|;
    var cut := |text|;
    ghost var j := 0;
    if WellFormed(message) && limit > 0 { j := CutPoint(message, limit); }
    while cut > 0 && text[cut - 1] / 0x40 == 2
      invariant 0 <= cut <= original
      invariant WellFormed(message) && limit > 0 ==> cut > j
    {
      cut := cut - 1;
    }
    assert WellFormed(message) && limit > 0 ==> cut == j + 1;
    if cut > 0 {
      var expected := ByHighBits(text[cut - 1]);
      if expected == 0 || |text| - (cut - 1) < expected {
        cut := cut - 1;
      } else {
        cut := original;
      }
    }
    text := text[..cut];
  }
}

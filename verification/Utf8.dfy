/** UTF-8 (section 3 of RFC 3629) with a strict decoder, a tolerant decoder that replaces each
    maximal ill-formed subpart by one U+FFFD (section 3.9 of the Unicode Standard), and the
    64 KiB cut that Tool.run makes between the two. */
module Utf8 {

  type byte = x: int | 0 <= x < 256

  import opened Options

  // ---- Encoding ----

  function EncodeChar(c: char): (bs: seq<byte>)
    ensures 1 <= |bs| <= 4
  {
    var u := c as int;
    if u < 0x80 then [u]
    else if u < 0x800 then [0xC0 + u / 64, 0x80 + u % 64]
    else if u < 0x1_0000 then [0xE0 + u / 4096, 0x80 + u / 64 % 64, 0x80 + u % 64]
    else
      assert u < 0x11_0000;
      [0xF0 + u / 262144, 0x80 + u / 4096 % 64, 0x80 + u / 64 % 64, 0x80 + u % 64]
  }

  function Encode(s: string): seq<byte> {
    if s == "" then [] else EncodeChar(s[0]) + Encode(s[1..])
  }

  /** The number that the bits after the markers spell, most significant first. */
  function Payload(lead: int, tails: seq<byte>): int {
    if tails == [] then lead else Payload(lead, tails[..|tails| - 1]) * 64 + (tails[|tails| - 1] as int - 0x80)
  }

  /** The table in section 3 of RFC 3629: how many bytes a character takes, their marker bits, and
      that the remaining bits, most significant first, are those of its number. */
  lemma EncodingTable(c: char)
    ensures var u, bs := c as int, EncodeChar(c);
            && (u <= 0x7F ==> bs == [u])
            && (0x80 <= u <= 0x7FF ==> |bs| == 2 && 0xC0 <= bs[0] < 0xE0 && u == Payload(bs[0] - 0xC0, bs[1..]))
            && (0x800 <= u <= 0xFFFF ==> |bs| == 3 && 0xE0 <= bs[0] < 0xF0 && u == Payload(bs[0] - 0xE0, bs[1..]))
            && (0x1_0000 <= u ==> |bs| == 4 && 0xF0 <= bs[0] < 0xF8 && u == Payload(bs[0] - 0xF0, bs[1..]))
            && (forall i :: 0 < i < |bs| ==> 0x80 <= bs[i] < 0xC0)
  {
    var u, bs := c as int, EncodeChar(c);
    if u > 0x7F {
      var marker := if u <= 0x7FF then 0xC0 else if u <= 0xFFFF then 0xE0 else 0xF0;
      if u <= 0x7FF { TwoDigits(u); } else if u <= 0xFFFF { ThreeDigits(u); } else { FourDigits(u); }
      assert bs == bs[..1] + bs[1..];
      PayloadOf(bs[0] - marker, u / 4096 % 64, u / 64 % 64, u % 64);
    }
  }

  lemma TwoDigits(u: nat)
    ensures u == (u / 64) * 64 + u % 64
  {
  }

  /** The payload of one to three tail bytes. */
  lemma PayloadOf(lead: int, d2: int, d1: int, d0: int)
    requires 0 <= d2 < 64 && 0 <= d1 < 64 && 0 <= d0 < 64
    ensures Payload(lead, [0x80 + d0]) == lead * 64 + d0
    ensures Payload(lead, [0x80 + d1, 0x80 + d0]) == lead * 4096 + d1 * 64 + d0
    ensures Payload(lead, [0x80 + d2, 0x80 + d1, 0x80 + d0]) == lead * 262144 + d2 * 4096 + d1 * 64 + d0
  {
    PayloadSnoc(lead, [], d0);
    PayloadSnoc(lead, [], d1);
    PayloadSnoc(lead, [], d2);
    PayloadSnoc(lead, [0x80 + d1], d0);
    PayloadSnoc(lead, [0x80 + d2], d1);
    PayloadSnoc(lead, [0x80 + d2, 0x80 + d1], d0);
    assert [] + [0x80 + d0 as byte] == [0x80 + d0] && [] + [0x80 + d1 as byte] == [0x80 + d1];
    assert [] + [0x80 + d2 as byte] == [0x80 + d2];
    assert [0x80 + d1] + [0x80 + d0 as byte] == [0x80 + d1, 0x80 + d0];
    assert [0x80 + d2] + [0x80 + d1 as byte] == [0x80 + d2, 0x80 + d1];
    assert [0x80 + d2, 0x80 + d1] + [0x80 + d0 as byte] == [0x80 + d2, 0x80 + d1, 0x80 + d0];
  }

  lemma PayloadSnoc(lead: int, tails: seq<byte>, d: int)
    requires 0 <= d < 64
    ensures Payload(lead, []) == lead
    ensures Payload(lead, tails + [0x80 + d]) == Payload(lead, tails) * 64 + d
  {
    assert (tails + [0x80 + d as byte])[..|tails|] == tails;
  }

  // ---- Decoding one character ----

  datatype Decoded = Good(scalar: char, size: nat) | Bad(size: nat)

  predicate Tail(b: byte) {
    0x80 <= b <= 0xBF
  }

  /** Length announced by a lead byte; 0 for a byte that cannot start a character. */
  function Announced(lead: byte): (n: nat)
    ensures n <= 4
  {
    if lead <= 0x7F then 1
    else if 0xC2 <= lead <= 0xDF then 2
    else if 0xE0 <= lead <= 0xEF then 3
    else if 0xF0 <= lead <= 0xF4 then 4
    else 0
  }

  /** The second byte is further restricted after four lead bytes (no overlong forms, no
      surrogates, nothing above U+10FFFF). */
  predicate SecondOk(lead: byte, b: byte) {
    && Tail(b)
    && (lead == 0xE0 ==> 0xA0 <= b)
    && (lead == 0xED ==> b <= 0x9F)
    && (lead == 0xF0 ==> 0x90 <= b)
    && (lead == 0xF4 ==> b <= 0x8F)
  }

  /** The number with the given base-64 digits. */
  function Scalar(d3: int, d2: int, d1: int, d0: int): int {
    d3 * 262144 + d2 * 4096 + d1 * 64 + d0
  }

  /** The next character, or the size of the maximal ill-formed subpart. */
  function Next(bs: seq<byte>): (d: Decoded)
    requires bs != []
    ensures 1 <= d.size <= |bs|
  {
    var n := Announced(bs[0]);
    if n == 0 then Bad(1)
    else if n == 1 then Good(bs[0] as char, 1)
    else if |bs| < 2 || !SecondOk(bs[0], bs[1]) then Bad(1)
    else if n == 2 then Good(Scalar(0, 0, bs[0] - 0xC0, bs[1] - 0x80) as char, 2)
    else if |bs| < 3 || !Tail(bs[2]) then Bad(2)
    else if n == 3 then
      Good(Scalar(0, bs[0] - 0xE0, bs[1] - 0x80, bs[2] - 0x80) as char, 3)
    else if |bs| < 4 || !Tail(bs[3]) then Bad(3)
    else
      Good(Scalar(bs[0] - 0xF0, bs[1] - 0x80, bs[2] - 0x80, bs[3] - 0x80) as char, 4)
  }

  // ---- Decoding a whole byte string ----

  /** `bytes.decode("utf-8")`; None stands for UnicodeDecodeError. */
  function Decode(bs: seq<byte>): Option<string> {
    if bs == [] then Some("")
    else
      match Next(bs)
      case Bad(_) => None
      case Good(c, n) =>
        match Decode(bs[n..])
        case None => None
        case Some(s) => Some([c] + s)
  }

  /** `bytes.decode("utf-8", errors="replace")` */
  function DecodeReplace(bs: seq<byte>): string {
    if bs == [] then ""
    else
      match Next(bs)
      case Bad(n) => "\U{FFFD}" + DecodeReplace(bs[n..])
      case Good(c, n) => [c] + DecodeReplace(bs[n..])
  }

  // ---- One character: encode and decode are inverse, a cut character is one subpart ----

  lemma NextOfEncoded(c: char, rest: seq<byte>)
    ensures Next(EncodeChar(c) + rest) == Good(c, |EncodeChar(c)|)
  {
    var u, bs := c as int, EncodeChar(c) + rest;
    assert forall i :: 0 <= i < |EncodeChar(c)| ==> bs[i] == EncodeChar(c)[i];
    if 0x800 <= u < 0x1_0000 {
      ThreeDigits(u);
    } else if 0x1_0000 <= u {
      FourDigits(u);
    }
  }

  lemma ThreeDigits(u: nat)
    ensures u == (u / 4096) * 4096 + (u / 64 % 64) * 64 + u % 64
  {
    assert u / 64 == (u / 64 / 64) * 64 + u / 64 % 64;
    assert u / 64 / 64 == u / 4096;
  }

  lemma FourDigits(u: nat)
    ensures u == (u / 262144) * 262144 + (u / 4096 % 64) * 4096 + (u / 64 % 64) * 64 + u % 64
  {
    ThreeDigits(u);
    assert u / 4096 == (u / 4096 / 64) * 64 + u / 4096 % 64;
    assert u / 4096 / 64 == u / 262144;
  }

  lemma NextOfCut(c: char, k: nat)
    requires 0 < k < |EncodeChar(c)|
    ensures Next(EncodeChar(c)[..k]) == Bad(k)
  {
    var u := c as int;
    NextOfEncoded(c, []);
    assert EncodeChar(c) + [] == EncodeChar(c);
  }

  lemma NextIsEncoded(bs: seq<byte>)
    requires bs != [] && Next(bs).Good?
    ensures bs[..Next(bs).size] == EncodeChar(Next(bs).scalar)
  {
    if Next(bs).size == 2 {
      DigitsOf(0, 0, bs[0] - 0xC0, bs[1] - 0x80);
    } else if Next(bs).size == 3 {
      DigitsOf(0, bs[0] - 0xE0, bs[1] - 0x80, bs[2] - 0x80);
    } else if Next(bs).size == 4 {
      DigitsOf(bs[0] - 0xF0, bs[1] - 0x80, bs[2] - 0x80, bs[3] - 0x80);
    }
  }

  lemma DigitsOf(d3: int, d2: int, d1: int, d0: int)
    requires 0 <= d3 && 0 <= d2 < 64 && 0 <= d1 < 64 && 0 <= d0 < 64
    ensures var u := Scalar(d3, d2, d1, d0);
            && u % 64 == d0
            && u / 64 == d3 * 4096 + d2 * 64 + d1 && u / 64 % 64 == d1
            && u / 4096 == d3 * 64 + d2 && u / 4096 % 64 == d2
            && u / 262144 == d3
  {
  }

  // ---- Strict decoding is the inverse of encoding, both ways ----

  lemma {:induction false} DecodeEncode(s: string)
    ensures Decode(Encode(s)) == Some(s)
  {
    hide EncodeChar, Next;
    if s != "" {
      DecodeEncode(s[1..]);
      NextOfEncoded(s[0], Encode(s[1..]));
      assert Encode(s)[|EncodeChar(s[0])|..] == Encode(s[1..]);
      assert [s[0]] + s[1..] == s;
    }
  }

  lemma {:induction false} EncodeDecode(bs: seq<byte>)
    ensures Decode(bs).Some? ==> Encode(Decode(bs).value) == bs
  {
    hide EncodeChar, Next;
    if bs != [] && Decode(bs).Some? {
      var n := Next(bs).size;
      EncodeDecode(bs[n..]);
      NextIsEncoded(bs);
      var s := Decode(bs).value;
      assert s[1..] == Decode(bs[n..]).value;
      assert bs == bs[..n] + bs[n..];
    }
  }

  // ---- Truncation ----

  const MAX_INLINE_RESULT_BYTES := 65536
  const MARKER := "\n[truncated]"

  datatype Clamped = Clamped(content: string, truncated: bool)

  /** What Tool.run does to the content of a result. */
  function Clamp(content: string): Clamped {
    var bs := Encode(content);
    if |bs| > MAX_INLINE_RESULT_BYTES
    then Clamped(DecodeReplace(bs[..MAX_INLINE_RESULT_BYTES]) + MARKER, true)
    else Clamped(content, false)
  }

  /** Length of the longest prefix of `s`, in characters, whose encoding fits in `limit` bytes. */
  function Fit(s: string, limit: nat): (k: nat)
    ensures k <= |s|
  {
    if s == "" || |EncodeChar(s[0])| > limit then 0
    else 1 + Fit(s[1..], limit - |EncodeChar(s[0])|)
  }

  /** Fit is the longest prefix that fits: it fits, and one character more does not. */
  lemma {:induction false} FitIsLongest(s: string, limit: nat)
    ensures |Encode(s[..Fit(s, limit)])| <= limit
    ensures Fit(s, limit) < |s| ==> |Encode(s[..Fit(s, limit) + 1])| > limit
  {
    var k := Fit(s, limit);
    if k > 0 {
      FitIsLongest(s[1..], limit - |EncodeChar(s[0])|);
      assert s[..k][1..] == s[1..][..k - 1];
      if k < |s| { assert s[..k + 1][1..] == s[1..][..k]; }
    } else if s != "" {
      assert s[..1][1..] == "";
    }
  }

  /** Cutting an encoding at any byte and decoding tolerantly keeps the longest whole-character
      prefix and adds one U+FFFD exactly when a character was cut. */
  lemma {:induction false} CutDecodes(s: string, limit: nat)
    requires limit <= |Encode(s)|
    ensures var p := s[..Fit(s, limit)];
            DecodeReplace(Encode(s)[..limit]) == p + (if |Encode(p)| < limit then "\U{FFFD}" else "")
  {
    hide EncodeChar, Next;
    var k := Fit(s, limit);
    var cut := Encode(s)[..limit];
    if limit > 0 {
      var first, rest := EncodeChar(s[0]), Encode(s[1..]);
      if |first| > limit {
        assert cut == first[..limit];
        NextOfCut(s[0], limit);
        assert cut[limit..] == [];
      } else {
        CutDecodes(s[1..], limit - |first|);
        assert cut == first + rest[..limit - |first|];
        NextOfEncoded(s[0], rest[..limit - |first|]);
        assert cut[|first|..] == rest[..limit - |first|];
        assert s[..k][1..] == s[1..][..k - 1];
        assert s[..k] == [s[0]] + s[1..][..k - 1];
      }
    }
  }

  lemma {:induction false} EncodeConcat(a: string, b: string)
    ensures Encode(a + b) == Encode(a) + Encode(b)
  {
    if a == "" {
      assert a + b == b;
    } else {
      EncodeConcat(a[1..], b);
      assert (a + b)[1..] == a[1..] + b;
    }
  }

  /** The exact shape and byte bound of every clamped result. */
  lemma TruncationExact(content: string)
    ensures var r := Clamp(content);
            && (r.truncated <==> |Encode(content)| > 65536)
            && (!r.truncated ==> r.content == content)
            && (r.truncated ==>
                  var p := content[..Fit(content, 65536)];
                  var cut := if |Encode(p)| < 65536 then "\U{FFFD}" else "";
                  r.content == p + cut + "\n[truncated]" && p != content)
            && |Encode(r.content)| <= 65550
  {
    hide Fit, DecodeReplace, Next;
    AsciiLength(MARKER);
    AsciiLength("");
    assert |Encode("\U{FFFD}")| == 3 by { assert Encode("\U{FFFD}"[1..]) == []; }
    hide Encode;
    if |Encode(content)| > MAX_INLINE_RESULT_BYTES {
      var p := content[..Fit(content, MAX_INLINE_RESULT_BYTES)];
      var cut := if |Encode(p)| < MAX_INLINE_RESULT_BYTES then "\U{FFFD}" else "";
      FitIsLongest(content, MAX_INLINE_RESULT_BYTES);
      CutDecodes(content, MAX_INLINE_RESULT_BYTES);
      EncodeConcat(p + cut, MARKER);
      EncodeConcat(p, cut);
    }
  }

  lemma {:induction false} AsciiLength(s: string)
    requires forall i :: 0 <= i < |s| ==> s[i] as int < 0x80
    ensures |Encode(s)| == |s|
  {
    if s != "" {
      AsciiLength(s[1..]);
    }
  }
}

/** The standard base64 encoding of section 4 of RFC 4648, as Go's
    base64.StdEncoding applies it: padded with '=', decoding ignores '\r'
    and '\n', rejects anything after the padding, and does not insist that
    the unused bits of the last character are zero. */
module Base64 {
  import opened Wrappers

  type byte = x: int | 0 <= x < 256

  /** The character for a 6-bit value: A-Z, a-z, 0-9, '+', '/'. */
  function EncodeChar(i: int): (c: char)
    requires 0 <= i < 64
    ensures c != '=' && c != '\n' && c != '\r'
  {
    if i < 26 then ('A' as int + i) as char
    else if i < 52 then ('a' as int + i - 26) as char
    else if i < 62 then ('0' as int + i - 52) as char
    else if i == 62 then '+'
    else '/'
  }

  /** The 6-bit value of an alphabet character; None for any other character. */
  function CharValue(c: char): (v: Option<int>)
    ensures v.Some? ==> 0 <= v.value < 64 && EncodeChar(v.value) == c
  {
    if 'A' <= c <= 'Z' then Some(c as int - 'A' as int)
    else if 'a' <= c <= 'z' then Some(c as int - 'a' as int + 26)
    else if '0' <= c <= '9' then Some(c as int - '0' as int + 52)
    else if c == '+' then Some(62)
    else if c == '/' then Some(63)
    else None
  }

  lemma CharValueOfEncodeChar(i: int)
    requires 0 <= i < 64
    ensures CharValue(EncodeChar(i)) == Some(i)
  {
  }

  /** Three bytes as four characters (a full quantum). */
  function EncodeQuantum(a: byte, b: byte, c: byte): string {
    [EncodeChar(a / 4), EncodeChar((a % 4) * 16 + b / 16),
     EncodeChar((b % 16) * 4 + c / 64), EncodeChar(c % 64)]
  }

  /** base64.StdEncoding.EncodeToString. */
  function Encode(s: seq<byte>): (r: string)
    ensures |r| == (|s| + 2) / 3 * 4
    decreases |s|
  {
    if |s| == 0 then ""
    else if |s| == 1 then [EncodeChar(s[0] / 4), EncodeChar((s[0] % 4) * 16)] + "=="
    else if |s| == 2 then
      [EncodeChar(s[0] / 4), EncodeChar((s[0] % 4) * 16 + s[1] / 16), EncodeChar((s[1] % 16) * 4)] + "="
    else EncodeQuantum(s[0], s[1], s[2]) + Encode(s[3..])
  }

  /** The input with every '\r' and '\n' removed. */
  function StripNewlines(s: string): (r: string)
    ensures |r| <= |s|
    ensures forall i | 0 <= i < |r| :: r[i] != '\n' && r[i] != '\r'
  {
    if s == [] then []
    else if s[0] == '\n' || s[0] == '\r' then StripNewlines(s[1..])
    else [s[0]] + StripNewlines(s[1..])
  }

  /** Bytes of a quantum of four alphabet characters. */
  function DecodeFull(q: string): Option<seq<byte>>
    requires |q| == 4
  {
    match (CharValue(q[0]), CharValue(q[1]), CharValue(q[2]), CharValue(q[3]))
    case (Some(v0), Some(v1), Some(v2), Some(v3)) =>
      Some([v0 * 4 + v1 / 16, (v1 % 16) * 16 + v2 / 4, (v2 % 4) * 64 + v3])
    case _ => None
  }

  /** Bytes of the last quantum, which may end in one or two '='. */
  function DecodeLast(q: string): Option<seq<byte>>
    requires |q| == 4
  {
    if q[2] == '=' && q[3] == '=' then
      match (CharValue(q[0]), CharValue(q[1]))
      case (Some(v0), Some(v1)) => Some([v0 * 4 + v1 / 16])
      case _ => None
    else if q[3] == '=' then
      match (CharValue(q[0]), CharValue(q[1]), CharValue(q[2]))
      case (Some(v0), Some(v1), Some(v2)) => Some([v0 * 4 + v1 / 16, (v1 % 16) * 16 + v2 / 4])
      case _ => None
    else DecodeFull(q)
  }

  /** Decoding of input without line breaks: whole quanta, padding only in
      the last one. */
  function DecodeQuanta(s: string): Option<seq<byte>>
    decreases |s|
  {
    if s == [] then Some([])
    else if |s| < 4 then None
    else if |s| == 4 then DecodeLast(s)
    else
      match (DecodeFull(s[..4]), DecodeQuanta(s[4..]))
      case (Some(head), Some(tail)) => Some(head + tail)
      case _ => None
  }

  /** base64.StdEncoding.DecodeString: the decoded bytes, or None where Go
      reports an error. */
  function Decode(s: string): Option<seq<byte>> {
    DecodeQuanta(StripNewlines(s))
  }

  /** The input is valid standard base64. */
  predicate IsStdBase64(s: string) {
    Decode(s).Some?
  }

  lemma EncodeHasNoNewlines(s: seq<byte>)
    ensures StripNewlines(Encode(s)) == Encode(s)
  {
    var e := Encode(s);
    NoNewlinesStrip(e);
  }

  lemma {:induction false} EncodeHasNoBreaks(s: seq<byte>)
    ensures forall i | 0 <= i < |Encode(s)| :: Encode(s)[i] != '\n' && Encode(s)[i] != '\r'
    decreases |s|
  {
    if |s| >= 3 {
      EncodeHasNoBreaks(s[3..]);
      var q := EncodeQuantum(s[0], s[1], s[2]);
      assert Encode(s) == q + Encode(s[3..]);
    }
  }

  lemma {:induction false} NoNewlinesStrip(e: string)
    requires forall i | 0 <= i < |e| :: e[i] != '\n' && e[i] != '\r'
    ensures StripNewlines(e) == e
  {
    if e != [] {
      NoNewlinesStrip(e[1..]);
      assert e == [e[0]] + e[1..];
    }
  }

  lemma QuantumRoundTrip(a: byte, b: byte, c: byte)
    ensures DecodeFull(EncodeQuantum(a, b, c)) == Some([a, b, c])
    ensures DecodeLast(EncodeQuantum(a, b, c)) == Some([a, b, c])
  {
    var v0, v1, v2, v3 := a / 4, (a % 4) * 16 + b / 16, (b % 16) * 4 + c / 64, c % 64;
    CharValueOfEncodeChar(v0);
    CharValueOfEncodeChar(v1);
    CharValueOfEncodeChar(v2);
    CharValueOfEncodeChar(v3);
    assert v0 * 4 + v1 / 16 == a;
    assert (v1 % 16) * 16 + v2 / 4 == b;
    assert (v2 % 4) * 64 + v3 == c;
  }

  /** Decoding what was encoded gives back the bytes: the round trip that
      lets bootstrap data and SSH keys travel as base64 text. */
  lemma {:induction false} DecodeEncode(s: seq<byte>)
    ensures Decode(Encode(s)) == Some(s)
    ensures IsStdBase64(Encode(s))
  {
    EncodeHasNoBreaks(s);
    NoNewlinesStrip(Encode(s));
    EncodeQuantaRoundTrip(s);
  }

  lemma OneByteRoundTrip(a: byte)
    ensures DecodeQuanta(Encode([a])) == Some([a])
  {
    CharValueOfEncodeChar(a / 4);
    CharValueOfEncodeChar((a % 4) * 16);
    assert ((a % 4) * 16) / 16 == a % 4;
    var e := Encode([a]);
    assert e == [EncodeChar(a / 4), EncodeChar((a % 4) * 16), '=', '='];
    assert (a / 4) * 4 + a % 4 == a;
  }

  lemma TwoBytesRoundTrip(a: byte, b: byte)
    ensures DecodeQuanta(Encode([a, b])) == Some([a, b])
  {
    CharValueOfEncodeChar(a / 4);
    CharValueOfEncodeChar((a % 4) * 16 + b / 16);
    CharValueOfEncodeChar((b % 16) * 4);
    assert ((a % 4) * 16 + b / 16) / 16 == a % 4;
    assert (((b % 16) * 4)) / 4 == b % 16;
    var e := Encode([a, b]);
    assert e == [EncodeChar(a / 4), EncodeChar((a % 4) * 16 + b / 16), EncodeChar((b % 16) * 4), '='];
  }

  lemma QuantaPrepend(q: string, rest: string, head: seq<byte>, tail: seq<byte>)
    requires |q| == 4 && rest != []
    requires DecodeFull(q) == Some(head) && DecodeQuanta(rest) == Some(tail)
    ensures DecodeQuanta(q + rest) == Some(head + tail)
  {
    var e := q + rest;
    assert e[..4] == q;
    assert e[4..] == rest;
  }

  lemma EncodeLong(s: seq<byte>)
    requires |s| >= 3
    ensures Encode(s) == EncodeQuantum(s[0], s[1], s[2]) + Encode(s[3..])
  {
  }

  lemma ThreeBytesRoundTrip(s: seq<byte>)
    requires |s| == 3
    ensures DecodeQuanta(Encode(s)) == Some(s)
  {
    var q := EncodeQuantum(s[0], s[1], s[2]);
    assert Encode(s) == q by {
      EncodeLong(s);
      assert s[3..] == [];
    }
    QuantumRoundTrip(s[0], s[1], s[2]);
    assert s == [s[0], s[1], s[2]];
  }

  lemma EncodeNonEmpty(s: seq<byte>)
    requires s != []
    ensures Encode(s) != []
  {
  }

  /** A full quantum in front of valid input decodes to its three bytes in
      front of that input's bytes. */
  lemma QuantumPrepend(a: byte, b: byte, c: byte, rest: string, tail: seq<byte>)
    requires rest != [] && DecodeQuanta(rest) == Some(tail)
    ensures DecodeQuanta(EncodeQuantum(a, b, c) + rest) == Some([a, b, c] + tail)
  {
    QuantumRoundTrip(a, b, c);
    QuantaPrepend(EncodeQuantum(a, b, c), rest, [a, b, c], tail);
  }

  lemma SplitThree(s: seq<byte>)
    requires |s| >= 3
    ensures s == [s[0], s[1], s[2]] + s[3..]
  {
  }

  lemma LongRoundTrip(s: seq<byte>)
    requires |s| > 3 && DecodeQuanta(Encode(s[3..])) == Some(s[3..])
    ensures DecodeQuanta(Encode(s)) == Some(s)
  {
    EncodeLong(s);
    EncodeNonEmpty(s[3..]);
    QuantumPrepend(s[0], s[1], s[2], Encode(s[3..]), s[3..]);
    SplitThree(s);
  }

  lemma {:induction false} EncodeQuantaRoundTrip(s: seq<byte>)
    ensures DecodeQuanta(Encode(s)) == Some(s)
    decreases |s|
  {
    if |s| == 0 {
    } else if |s| == 1 {
      assert s == [s[0]];
      OneByteRoundTrip(s[0]);
    } else if |s| == 2 {
      assert s == [s[0], s[1]];
      TwoBytesRoundTrip(s[0], s[1]);
    } else if |s| == 3 {
      ThreeBytesRoundTrip(s);
    } else {
      EncodeQuantaRoundTrip(s[3..]);
      LongRoundTrip(s);
    }
  }
}

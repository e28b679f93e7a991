/**
 * Unpadded base64url, the encoding of JWS segments (RFC 7515 section 2 and
 * section 7.1; alphabet of RFC 4648 section 5), as Go's
 * `base64.RawURLEncoding` implements it: carriage returns and line feeds are
 * skipped, `=` is an illegal character, a lone trailing symbol is an error and
 * the unused low bits of a final partial group are ignored (non-strict mode).
 */
module Base64Url {
  import opened Wrappers

  newtype byte = x: int | 0 <= x < 256

  datatype DecodeError = CorruptInput

  /** Value of a symbol of the URL- and filename-safe alphabet (RFC 4648 section 5, Table 2). */
  function Index(c: char): (r: Option<int>)
    ensures r.Some? ==> 0 <= r.value < 64
  {
    if 'A' <= c <= 'Z' then Some(c as int - 'A' as int)
    else if 'a' <= c <= 'z' then Some(c as int - 'a' as int + 26)
    else if '0' <= c <= '9' then Some(c as int - '0' as int + 52)
    else if c == '-' then Some(62)
    else if c == '_' then Some(63)
    else None
  }

  /** The symbol for a 6-bit value. */
  function Symbol(v: int): (c: char)
    requires 0 <= v < 64
    ensures Index(c) == Some(v)
  {
    if v < 26 then ('A' as int + v) as char
    else if v < 52 then ('a' as int + v - 26) as char
    else if v < 62 then ('0' as int + v - 52) as char
    else if v == 62 then '-'
    else '_'
  }

  predicate InAlphabet(s: string) {
    forall i :: 0 <= i < |s| ==> Index(s[i]).Some?
  }

  /** The input with every '\r' and '\n' removed, which Go's decoder skips. */
  function StripNewlines(s: string): (t: string)
    ensures |t| <= |s|
    ensures forall i :: 0 <= i < |t| ==> t[i] != '\r' && t[i] != '\n'
  {
    if |s| == 0 then ""
    else if s[0] == '\r' || s[0] == '\n' then StripNewlines(s[1..])
    else [s[0]] + StripNewlines(s[1..])
  }

  function V(c: char): int
    requires Index(c).Some?
  {
    Index(c).value
  }

  /** The three bytes carried by a group of four symbols. */
  function DecodeQuad(c0: char, c1: char, c2: char, c3: char): (r: seq<byte>)
    requires Index(c0).Some? && Index(c1).Some? && Index(c2).Some? && Index(c3).Some?
    ensures |r| == 3
  {
    [(V(c0) * 4 + V(c1) / 16) as byte, ((V(c1) % 16) * 16 + V(c2) / 4) as byte, ((V(c2) % 4) * 64 + V(c3)) as byte]
  }

  /** A final group of two or three symbols carries one or two bytes; its unused low bits are ignored. */
  function DecodeTail(s: string): (r: seq<byte>)
    requires InAlphabet(s) && (|s| == 2 || |s| == 3)
    ensures |r| == |s| - 1
  {
    if |s| == 2 then [(V(s[0]) * 4 + V(s[1]) / 16) as byte]
    else [(V(s[0]) * 4 + V(s[1]) / 16) as byte, ((V(s[1]) % 16) * 16 + V(s[2]) / 4) as byte]
  }

  /** Bytes of a run of symbols, group by group. */
  function DecodeSymbols(s: string): seq<byte>
    requires InAlphabet(s) && |s| % 4 != 1
    decreases |s|
  {
    if |s| == 0 then []
    else if |s| < 4 then DecodeTail(s)
    else DecodeQuad(s[0], s[1], s[2], s[3]) + DecodeSymbols(s[4..])
  }

  /** `base64.RawURLEncoding.DecodeString(s)`. */
  function Decode(s: string): (r: Result<seq<byte>, DecodeError>)
    ensures r.Ok? <==> InAlphabet(StripNewlines(s)) && |StripNewlines(s)| % 4 != 1
    ensures r.Ok? ==> |r.value| == |StripNewlines(s)| * 3 / 4
  {
    var t := StripNewlines(s);
    if !InAlphabet(t) || |t| % 4 == 1 then Err(CorruptInput)
    else
      DecodedLength(t);
      Ok(DecodeSymbols(t))
  }

  lemma {:induction false} DecodedLength(t: string)
    requires InAlphabet(t) && |t| % 4 != 1
    ensures |DecodeSymbols(t)| == |t| * 3 / 4
    decreases |t|
  {
    if |t| >= 4 {
      DecodedLength(t[4..]);
    }
  }

  /** The four symbols for three bytes. */
  function EncodeTriple(b0: byte, b1: byte, b2: byte): (s: string)
    ensures |s| == 4 && InAlphabet(s)
  {
    [Symbol(b0 as int / 4), Symbol((b0 as int % 4) * 16 + b1 as int / 16),
     Symbol((b1 as int % 16) * 4 + b2 as int / 64), Symbol(b2 as int % 64)]
  }

  /** The two or three symbols for a final one or two bytes, without padding. */
  function EncodeTail(b: seq<byte>): (s: string)
    requires 1 <= |b| <= 2
    ensures |s| == |b| + 1 && InAlphabet(s)
  {
    if |b| == 1 then [Symbol(b[0] as int / 4), Symbol((b[0] as int % 4) * 16)]
    else [Symbol(b[0] as int / 4), Symbol((b[0] as int % 4) * 16 + b[1] as int / 16), Symbol((b[1] as int % 16) * 4)]
  }

  /** `base64.RawURLEncoding.EncodeToString(b)`, the inverse direction. */
  function Encode(b: seq<byte>): (s: string)
    ensures InAlphabet(s) && |s| % 4 != 1
    ensures |s| == (|b| * 4 + 2) / 3
  {
    if |b| == 0 then ""
    else if |b| < 3 then EncodeTail(b)
    else
      var head, rest := EncodeTriple(b[0], b[1], b[2]), Encode(b[3..]);
      assert forall i :: 4 <= i < |head + rest| ==> (head + rest)[i] == rest[i - 4];
      head + rest
  }

  lemma {:induction false} StripNewlinesOfEncoded(s: string)
    requires InAlphabet(s)
    ensures StripNewlines(s) == s
    decreases |s|
  {
    if |s| > 0 {
      assert InAlphabet(s[1..]) by {
        forall i | 0 <= i < |s[1..]| ensures Index(s[1..][i]).Some? { assert s[1..][i] == s[i + 1]; }
      }
      StripNewlinesOfEncoded(s[1..]);
      assert s == [s[0]] + s[1..];
    }
  }

  /**
   * The bit arithmetic of one group: the four 6-bit symbols the encoder takes
   * from three bytes give those bytes back (a short final group is the case
   * of zero trailing bytes).
   */
  lemma GroupRoundTrip(b0: int, b1: int, b2: int)
    requires 0 <= b0 < 256 && 0 <= b1 < 256 && 0 <= b2 < 256
    ensures var x0, x1 := b0 / 4, (b0 % 4) * 16 + b1 / 16;
      x0 * 4 + x1 / 16 == b0
    ensures var x1, x2 := (b0 % 4) * 16 + b1 / 16, (b1 % 16) * 4 + b2 / 64;
      (x1 % 16) * 16 + x2 / 4 == b1
    ensures var x2, x3 := (b1 % 16) * 4 + b2 / 64, b2 % 64;
      (x2 % 4) * 64 + x3 == b2
  {
  }

  /** A group of four symbols decodes to the three bytes it was encoded from. */
  lemma TripleRoundTrip(b0: byte, b1: byte, b2: byte)
    ensures var s := EncodeTriple(b0, b1, b2);
      DecodeQuad(s[0], s[1], s[2], s[3]) == [b0, b1, b2]
  {
    var s := EncodeTriple(b0, b1, b2);
    var r := DecodeQuad(s[0], s[1], s[2], s[3]);
    assert r[0] == b0 by {
      assert V(s[0]) == b0 as int / 4;
      assert V(s[1]) == (b0 as int % 4) * 16 + b1 as int / 16;
      GroupRoundTrip(b0 as int, b1 as int, b2 as int);
    }
    assert r[1] == b1 by {
      assert V(s[1]) == (b0 as int % 4) * 16 + b1 as int / 16;
      assert V(s[2]) == (b1 as int % 16) * 4 + b2 as int / 64;
      GroupRoundTrip(b0 as int, b1 as int, b2 as int);
    }
    assert r[2] == b2 by {
      assert V(s[2]) == (b1 as int % 16) * 4 + b2 as int / 64;
      assert V(s[3]) == b2 as int % 64;
      GroupRoundTrip(b0 as int, b1 as int, b2 as int);
    }
  }

  /** A final group decodes to the one or two bytes it was encoded from. */
  lemma TailRoundTrip(b: seq<byte>)
    requires 1 <= |b| <= 2
    ensures DecodeTail(EncodeTail(b)) == b
  {
    var s := EncodeTail(b);
    if |b| == 1 {
      GroupRoundTrip(b[0] as int, 0, 0);
      assert V(s[0]) == b[0] as int / 4;
      assert V(s[1]) == (b[0] as int % 4) * 16;
    } else {
      GroupRoundTrip(b[0] as int, b[1] as int, 0);
      assert V(s[0]) == b[0] as int / 4;
      assert V(s[1]) == (b[0] as int % 4) * 16 + b[1] as int / 16;
      assert V(s[2]) == (b[1] as int % 16) * 4;
    }
  }

  /** A run that starts with a group of four symbols decodes that group first. */
  lemma DecodeAfterQuad(head: string, rest: string)
    requires |head| == 4 && InAlphabet(head) && InAlphabet(rest) && |rest| % 4 != 1
    ensures InAlphabet(head + rest) && |head + rest| % 4 != 1
    ensures DecodeSymbols(head + rest) == DecodeQuad(head[0], head[1], head[2], head[3]) + DecodeSymbols(rest)
  {
    var s := head + rest;
    assert forall i :: 0 <= i < |s| ==> s[i] == (if i < 4 then head[i] else rest[i - 4]);
    assert s[4..] == rest;
  }

  lemma FirstThree(b: seq<byte>)
    requires |b| >= 3
    ensures b[..3] == [b[0], b[1], b[2]]
  {
  }

  /** Decoding the encoding of three or more bytes: the first three, then the rest. */
  lemma FullGroup(b: seq<byte>)
    requires |b| >= 3
    ensures DecodeSymbols(Encode(b)) == b[..3] + DecodeSymbols(Encode(b[3..]))
  {
    var head, rest := EncodeTriple(b[0], b[1], b[2]), Encode(b[3..]);
    assert Encode(b) == head + rest;
    DecodeAfterQuad(head, rest);
    TripleRoundTrip(b[0], b[1], b[2]);
    FirstThree(b);
  }

  lemma {:induction false} DecodeSymbolsOfEncode(b: seq<byte>)
    ensures DecodeSymbols(Encode(b)) == b
    decreases |b|
  {
    if 1 <= |b| <= 2 {
      TailRoundTrip(b);
    } else if |b| >= 3 {
      FullGroup(b);
      DecodeSymbolsOfEncode(b[3..]);
      assert b == b[..3] + b[3..];
    }
  }

  /** Decoding what the encoder produced returns the original bytes. */
  lemma DecodeEncode(b: seq<byte>)
    ensures Decode(Encode(b)) == Ok(b)
  {
    StripNewlinesOfEncoded(Encode(b));
    DecodeSymbolsOfEncode(b);
  }

  /** RFC 7515 section 2 forbids padding: a segment containing '=' never decodes. */
  lemma PaddingRejected(s: string, i: int)
    requires 0 <= i < |s| && s[i] == '='
    ensures Decode(s).Err?
  {
    StripNewlinesKeeps(s, i);
  }

  lemma {:induction false} StripNewlinesKeeps(s: string, i: int)
    requires 0 <= i < |s| && s[i] != '\r' && s[i] != '\n'
    ensures s[i] in StripNewlines(s)
    decreases |s|
  {
    if i > 0 {
      StripNewlinesKeeps(s[1..], i - 1);
    }
  }
}

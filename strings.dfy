/**
 * The parts of Go's `strings`, `strconv` and `fmt` packages the core relies on.
 * A Go string is a sequence of bytes; here each `char` stands for one byte, and
 * case mapping is the ASCII one (no Unicode case folding).
 */
module Strings {
  import opened Wrappers

  /** `strings.HasPrefix(s, p)`. */
  predicate HasPrefix(s: string, p: string) {
    |p| <= |s| && s[..|p|] == p
  }

  /** `strings.HasSuffix(s, p)`. */
  predicate HasSuffix(s: string, p: string) {
    |p| <= |s| && s[|s| - |p|..] == p
  }

  /** `strings.TrimPrefix(s, p)`: removes one leading `p` when there is one. */
  function TrimPrefix(s: string, p: string): (r: string)
    ensures HasPrefix(s, p) ==> p + r == s
    ensures !HasPrefix(s, p) ==> r == s
  {
    if HasPrefix(s, p) then s[|p|..] else s
  }

  /** ASCII lower-casing of one byte, as `strings.ToLower` does for ASCII input. */
  function ToLowerAscii(c: char): (r: char)
    ensures 'A' <= c <= 'Z' ==> 'a' <= r <= 'z' && r as int - c as int == 32
    ensures !('A' <= c <= 'Z') ==> r == c
  {
    if 'A' <= c <= 'Z' then (c as int + 32) as char else c
  }

  /** `strings.ToLower` restricted to ASCII case mapping. */
  function ToLower(s: string): (r: string)
    ensures |r| == |s|
    ensures forall i :: 0 <= i < |s| ==> r[i] == ToLowerAscii(s[i])
  {
    seq(|s|, i requires 0 <= i < |s| => ToLowerAscii(s[i]))
  }

  // ---------------------------------------------------------------------------
  // strings.Split and strings.Join with a one-byte separator
  // ---------------------------------------------------------------------------

  /** Number of occurrences of `c` in `s`. */
  function Count(s: string, c: char): nat {
    if |s| == 0 then 0 else (if s[0] == c then 1 else 0) + Count(s[1..], c)
  }

  /**
   * `strings.Split(s, string(sep))`: the pieces between separators, so that an
   * empty string gives one empty piece and `k` separators give `k + 1` pieces.
   */
  function Split(s: string, sep: char): (parts: seq<string>)
    ensures |parts| >= 1
    decreases |s|
  {
    if |s| == 0 then [""]
    else
      var rest := Split(s[1..], sep);
      if s[0] == sep then [""] + rest
      else [[s[0]] + rest[0]] + rest[1..]
  }

  /** `strings.Join(parts, string(sep))`. */
  function Join(parts: seq<string>, sep: char): string {
    if |parts| == 0 then ""
    else if |parts| == 1 then parts[0]
    else parts[0] + [sep] + Join(parts[1..], sep)
  }

  /** No piece produced by `Split` contains the separator. */
  lemma {:induction false} SplitPiecesFree(s: string, sep: char)
    ensures forall k :: 0 <= k < |Split(s, sep)| ==> sep !in Split(s, sep)[k]
    decreases |s|
  {
    if |s| > 0 {
      SplitPiecesFree(s[1..], sep);
    }
  }

  /** Splitting on `sep` yields one more piece than there are separators. */
  lemma {:induction false} SplitLength(s: string, sep: char)
    ensures |Split(s, sep)| == Count(s, sep) + 1
    decreases |s|
  {
    if |s| > 0 {
      SplitLength(s[1..], sep);
    }
  }

  /** Joining the pieces of a split with the same separator gives back the string. */
  lemma {:induction false} JoinSplit(s: string, sep: char)
    ensures Join(Split(s, sep), sep) == s
    decreases |s|
  {
    if |s| > 0 {
      var rest := Split(s[1..], sep);
      JoinSplit(s[1..], sep);
      if s[0] == sep {
        assert Split(s, sep) == [""] + rest;
        assert Join([""] + rest, sep) == "" + [sep] + Join(rest, sep);
        assert s == [s[0]] + s[1..];
      } else {
        var r := Split(s, sep);
        assert r == [[s[0]] + rest[0]] + rest[1..];
        if |rest| == 1 {
          assert Join(rest, sep) == rest[0];
        } else {
          assert Join(rest, sep) == rest[0] + [sep] + Join(rest[1..], sep);
          assert r[1..] == rest[1..];
        }
        assert s == [s[0]] + s[1..];
      }
    }
  }

  /** A string without the separator splits into itself alone. */
  lemma {:induction false} SplitWithoutSeparator(s: string, sep: char)
    requires sep !in s
    ensures Split(s, sep) == [s]
    decreases |s|
  {
    if |s| > 0 {
      assert s[0] != sep;
      assert sep !in s[1..] by {
        forall k | 0 <= k < |s[1..]| ensures s[1..][k] != sep { assert s[1..][k] == s[k + 1]; }
      }
      SplitWithoutSeparator(s[1..], sep);
      assert s == [s[0]] + s[1..];
    }
  }

  /** A separator between `a` and `b` splits exactly where it stands. */
  /** `Split` of a string that starts with the separator. */
  lemma SplitConsSep(t: string, sep: char)
    ensures Split([sep] + t, sep) == [""] + Split(t, sep)
  {
    assert ([sep] + t)[1..] == t;
  }

  /** `Split` of a string that starts with another byte: that byte joins the first piece. */
  lemma SplitConsOther(c: char, t: string, sep: char)
    requires c != sep
    ensures Split([c] + t, sep) == [[c] + Split(t, sep)[0]] + Split(t, sep)[1..]
  {
    assert ([c] + t)[1..] == t;
  }

  /** One step of `SplitAround` when the prepended byte is the separator. */
  lemma SplitAroundStepSep(a: string, t: string, b: string, sep: char)
    requires Split(t, sep) == Split(a, sep) + Split(b, sep)
    ensures Split([sep] + t, sep) == Split([sep] + a, sep) + Split(b, sep)
  {
    calc {
      Split([sep] + t, sep);
      { SplitConsSep(t, sep); }
      [""] + (Split(a, sep) + Split(b, sep));
      ([""] + Split(a, sep)) + Split(b, sep);
      { SplitConsSep(a, sep); }
      Split([sep] + a, sep) + Split(b, sep);
    }
  }

  /** Extending the first piece commutes with appending further pieces. */
  lemma ExtendFirstPiece(c: char, ra: seq<string>, rb: seq<string>)
    requires |ra| >= 1
    ensures [[c] + (ra + rb)[0]] + (ra + rb)[1..] == ([[c] + ra[0]] + ra[1..]) + rb
  {
    assert (ra + rb)[0] == ra[0];
    assert (ra + rb)[1..] == ra[1..] + rb;
  }

  /** One step of `SplitAround` when the prepended byte is not the separator. */
  lemma SplitAroundStepOther(c: char, a: string, t: string, b: string, sep: char)
    requires c != sep
    requires Split(t, sep) == Split(a, sep) + Split(b, sep)
    ensures Split([c] + t, sep) == Split([c] + a, sep) + Split(b, sep)
  {
    SplitConsOther(c, t, sep);
    SplitConsOther(c, a, sep);
    ExtendFirstPiece(c, Split(a, sep), Split(b, sep));
  }

  lemma {:induction false} SplitAround(a: string, b: string, sep: char)
    ensures Split(a + [sep] + b, sep) == Split(a, sep) + Split(b, sep)
    decreases |a|
  {
    if |a| == 0 {
      assert a + [sep] + b == [sep] + b;
      SplitConsSep(b, sep);
    } else {
      var t := a[1..] + [sep] + b;
      calc {
        Split(a + [sep] + b, sep);
        { assert a + [sep] + b == [a[0]] + t; }
        Split([a[0]] + t, sep);
        { SplitAround(a[1..], b, sep);
          if a[0] == sep {
            SplitAroundStepSep(a[1..], t, b, sep);
          } else {
            SplitAroundStepOther(a[0], a[1..], t, b, sep);
          } }
        Split([a[0]] + a[1..], sep) + Split(b, sep);
        { assert a == [a[0]] + a[1..]; }
        Split(a, sep) + Split(b, sep);
      }
    }
  }

  /** Splitting a join of separator-free pieces gives the pieces back. */
  lemma {:induction false} SplitJoin(parts: seq<string>, sep: char)
    requires |parts| >= 1
    requires forall k :: 0 <= k < |parts| ==> sep !in parts[k]
    ensures Split(Join(parts, sep), sep) == parts
    decreases |parts|
  {
    SplitWithoutSeparator(parts[0], sep);
    if |parts| > 1 {
      SplitJoin(parts[1..], sep);
      SplitAround(parts[0], Join(parts[1..], sep), sep);
      assert parts == [parts[0]] + parts[1..];
    }
  }

  // ---------------------------------------------------------------------------
  // Decimal integers: fmt's %d and %02d, strconv.ParseInt(s, 10, 64)
  // ---------------------------------------------------------------------------

  const MinInt64: int := -0x8000_0000_0000_0000
  const MaxInt64: int := 0x7fff_ffff_ffff_ffff

  predicate IsDigit(c: char) {
    '0' <= c <= '9'
  }

  predicate AllDigits(s: string) {
    forall i :: 0 <= i < |s| ==> IsDigit(s[i])
  }

  function DigitChar(d: int): (c: char)
    requires 0 <= d < 10
    ensures IsDigit(c) && c as int - '0' as int == d
  {
    ('0' as int + d) as char
  }

  /** The value of a string of decimal digits, most significant first. */
  function DigitsValue(s: string): nat
    requires AllDigits(s)
  {
    if |s| == 0 then 0 else DigitsValue(s[..|s| - 1]) * 10 + (s[|s| - 1] as int - '0' as int)
  }

  /** The shortest decimal spelling of `n` (no leading zeros). */
  function NatToString(n: nat): (s: string)
    ensures |s| >= 1 && AllDigits(s)
    ensures |s| > 1 ==> s[0] != '0'
  {
    if n < 10 then [DigitChar(n)] else NatToString(n / 10) + [DigitChar(n % 10)]
  }

  /** `fmt.Sprintf("%d", i)`. */
  function IntToString(i: int): (s: string)
    ensures |s| >= 1
    ensures forall k :: 0 <= k < |s| ==> IsDigit(s[k]) || s[k] == '-'
  {
    if i < 0 then "-" + NatToString(-i) else NatToString(i)
  }

  /** `fmt.Sprintf("%02d", i)`: at least two characters, zero-padded on the left. */
  function Pad2(i: int): (s: string)
    ensures |s| >= 2
    ensures forall k :: 0 <= k < |s| ==> IsDigit(s[k]) || s[k] == '-'
  {
    var t := IntToString(i);
    if |t| < 2 then "0" + t else t
  }

  /**
   * `strconv.ParseInt(s, 10, 64)`: an optional sign followed by at least one
   * decimal digit, whose value fits in 64 bits; anything else is an error.
   */
  function ParseInt(s: string): (r: Option<int>)
    ensures r.Some? ==> MinInt64 <= r.value <= MaxInt64
  {
    if |s| == 0 then None
    else
      var digits := if s[0] == '-' || s[0] == '+' then s[1..] else s;
      if |digits| == 0 || !AllDigits(digits) then None
      else
        var n: int := DigitsValue(digits);
        var v := if s[0] == '-' then -n else n;
        if MinInt64 <= v <= MaxInt64 then Some(v) else None
  }

  /** Reading back a spelled-out natural number gives that number. */
  lemma {:induction false} DigitsValueOfNat(n: nat)
    ensures DigitsValue(NatToString(n)) == n
  {
    if n >= 10 {
      var s := NatToString(n);
      DigitsValueOfNat(n / 10);
      assert s[..|s| - 1] == NatToString(n / 10);
    }
  }

  /** `%d` followed by `strconv.ParseInt` is the identity on 64-bit integers. */
  lemma ParseIntOfIntToString(i: int)
    requires MinInt64 <= i <= MaxInt64
    ensures ParseInt(IntToString(i)) == Some(i)
  {
    var s := IntToString(i);
    if i < 0 {
      DigitsValueOfNat(-i);
      assert s[1..] == NatToString(-i);
    } else {
      DigitsValueOfNat(i);
    }
  }

  /** `%02d` of a day or month number is exactly two digits with that value. */
  lemma Pad2OfSmall(i: int)
    requires 0 <= i < 100
    ensures |Pad2(i)| == 2 && AllDigits(Pad2(i)) && DigitsValue(Pad2(i)) == i
  {
    DigitsValueOfNat(i);
    if i < 10 {
      assert Pad2(i) == "0" + [DigitChar(i)];
      assert Pad2(i)[..1] == "0";
    } else {
      assert NatToString(i / 10) == [DigitChar(i / 10)];
      assert Pad2(i) == [DigitChar(i / 10)] + [DigitChar(i % 10)];
    }
  }
}

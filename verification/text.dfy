/**
 * The pieces of Go's `strings`, `strconv` and `fmt` that the program relies on:
 * whitespace trimming, case mapping, splitting and joining, and decimal
 * formatting of integers (`%d`, `strconv.FormatInt(_, 10)`).
 * A Go string is a byte sequence; here it is a sequence of Unicode scalar
 * values, which is the same thing for the valid UTF-8 the program handles.
 */
module Text {

  // ---------------------------------------------------------------------
  // Whitespace (unicode.IsSpace) and strings.TrimSpace
  // ---------------------------------------------------------------------

  /** Go's `unicode.IsSpace`: the Latin-1 spaces and the other White_Space runes. */
  predicate IsSpace(c: char)
  {
    c == '\t' || c == '\n' || c == '\U{000B}' || c == '\U{000C}' || c == '\r' || c == ' '
    || c == '\U{0085}' || c == '\U{00A0}' || c == '\U{1680}'
    || ('\U{2000}' <= c <= '\U{200A}')
    || c == '\U{2028}' || c == '\U{2029}' || c == '\U{202F}' || c == '\U{205F}' || c == '\U{3000}'
  }

  /** Drops the leading whitespace: what remains is a suffix of `s` that does not start with a space. */
  function TrimLeft(s: string): (r: string)
    ensures |r| <= |s| && r == s[|s| - |r|..]
    ensures forall k :: 0 <= k < |s| - |r| ==> IsSpace(s[k])
    ensures r == [] || !IsSpace(r[0])
  {
    if |s| > 0 && IsSpace(s[0]) then TrimLeft(s[1..]) else s
  }

  /** Drops the trailing whitespace: what remains is a prefix of `s` that does not end with a space. */
  function TrimRight(s: string): (r: string)
    ensures |r| <= |s| && r == s[..|r|]
    ensures forall k :: |r| <= k < |s| ==> IsSpace(s[k])
    ensures r == [] || !IsSpace(r[|r| - 1])
  {
    if |s| > 0 && IsSpace(s[|s| - 1]) then TrimRight(s[..|s| - 1]) else s
  }

  /**
   * `strings.TrimSpace`: the slice of `s` left once the white space at both
   * ends is cut off; it neither starts nor ends with white space.
   */
  function TrimSpace(s: string): (r: string)
    ensures |r| <= |s|
    ensures r == [] || (!IsSpace(r[0]) && !IsSpace(r[|r| - 1]))
    ensures exists a, b ::
      && 0 <= a <= b <= |s| && r == s[a..b]
      && (forall k :: 0 <= k < a ==> IsSpace(s[k]))
      && (forall k :: b <= k < |s| ==> IsSpace(s[k]))
  {
    var l := TrimLeft(s);
    var r := TrimRight(l);
    TrimSpaceSlice(s, l, r);
    r
  }

  /**
   * Dropping white space from the front of `s` (giving `l`) and then from the
   * back of `l` (giving `r`) leaves the slice of `s` between the two runs.
   */
  lemma TrimSpaceSlice(s: string, l: string, r: string)
    requires |l| <= |s| && l == s[|s| - |l|..] && (forall k :: 0 <= k < |s| - |l| ==> IsSpace(s[k]))
    requires l == [] || !IsSpace(l[0])
    requires |r| <= |l| && r == l[..|r|] && (forall k :: |r| <= k < |l| ==> IsSpace(l[k]))
    requires r == [] || !IsSpace(r[|r| - 1])
    ensures r == [] || (!IsSpace(r[0]) && !IsSpace(r[|r| - 1]))
    ensures exists a, b ::
      && 0 <= a <= b <= |s| && r == s[a..b]
      && (forall k :: 0 <= k < a ==> IsSpace(s[k]))
      && (forall k :: b <= k < |s| ==> IsSpace(s[k]))
  {
    if r != [] {
      assert r[0] == l[0];
    }
    var a := |s| - |l|;
    var b := a + |r|;
    assert r == s[a..b] by {
      assert forall k :: 0 <= k < |r| ==> r[k] == l[k] == s[a + k];
    }
    forall k | b <= k < |s|
      ensures IsSpace(s[k])
    {
      assert s[k] == l[k - a];
    }
  }

  lemma TrimRightKeepsStart(s: string)
    requires s == [] || !IsSpace(s[0])
    ensures TrimRight(s) == [] || TrimRight(s)[0] == s[0]
  {
  }

  /** Trimming twice is trimming once. */
  lemma TrimSpaceIdempotent(s: string)
    ensures TrimSpace(TrimSpace(s)) == TrimSpace(s)
  {
    var t := TrimSpace(s);
    TrimRightKeepsStart(TrimLeft(s));
    assert TrimLeft(t) == t;
    assert TrimRight(t) == t;
  }

  // ---------------------------------------------------------------------
  // Case mapping (strings.ToLower / strings.ToUpper)
  // ---------------------------------------------------------------------

  /**
   * `unicode.ToLower` as far as any comparison with ASCII text can observe:
   * exact on ASCII, and exact on the two non-ASCII runes whose lower case is
   * ASCII (U+0130 to 'i', the Kelvin sign U+212A to 'k'); every other rune is
   * left as it is, and so stays outside ASCII as its true lower case does.
   */
  function LowerRune(c: char): (r: char)
    ensures ('A' <= c <= 'Z') ==> r as int == c as int + 32
    ensures c < '\U{0080}' && !('A' <= c <= 'Z') ==> r == c
    ensures r < '\U{0080}' ==> c < '\U{0080}' || c == '\U{0130}' || c == '\U{212A}'
  {
    if 'A' <= c <= 'Z' then (c as int + 32) as char
    else if c == '\U{0130}' then 'i'
    else if c == '\U{212A}' then 'k'
    else c
  }

  /** `unicode.ToUpper` on ASCII letters; every other rune is left as it is. */
  function UpperRune(c: char): (r: char)
    ensures ('a' <= c <= 'z') ==> r as int == c as int - 32
    ensures !('a' <= c <= 'z') ==> r == c
  {
    if 'a' <= c <= 'z' then (c as int - 32) as char else c
  }

  function ToLower(s: string): (r: string)
    ensures |r| == |s| && forall i :: 0 <= i < |s| ==> r[i] == LowerRune(s[i])
  {
    seq(|s|, i requires 0 <= i < |s| => LowerRune(s[i]))
  }

  function ToUpper(s: string): (r: string)
    ensures |r| == |s| && forall i :: 0 <= i < |s| ==> r[i] == UpperRune(s[i])
  {
    seq(|s|, i requires 0 <= i < |s| => UpperRune(s[i]))
  }

  // ---------------------------------------------------------------------
  // strings.Split on a one-rune separator, strings.Join
  // ---------------------------------------------------------------------

  function Count(s: string, c: char): nat
  {
    if s == [] then 0 else (if s[0] == c then 1 else 0) + Count(s[1..], c)
  }

  /** `strings.Split(s, [c])`: the pieces between occurrences of `c`; an empty `s` gives `[""]`. */
  function Split(s: string, c: char): (r: seq<string>)
    ensures |r| == Count(s, c) + 1
    ensures forall i :: 0 <= i < |r| ==> c !in r[i]
  {
    if s == [] then [""]
    else if s[0] == c then [""] + Split(s[1..], c)
    else
      var rest := Split(s[1..], c);
      [[s[0]] + rest[0]] + rest[1..]
  }

  /** `strings.Join(parts, sep)`. */
  function Join(parts: seq<string>, sep: string): string
  {
    if |parts| == 0 then ""
    else if |parts| == 1 then parts[0]
    else parts[0] + sep + Join(parts[1..], sep)
  }

  /** The concatenation of all parts, in order (`strings.Join(parts, "")`). */
  function Concat(parts: seq<string>): string
  {
    if parts == [] then "" else Concat(parts[..|parts| - 1]) + parts[|parts| - 1]
  }

  lemma {:induction false} ConcatAppend(a: seq<string>, b: seq<string>)
    ensures Concat(a + b) == Concat(a) + Concat(b)
    decreases |b|
  {
    if b == [] {
      assert a + b == a;
    } else {
      var ab := a + b;
      var init := b[..|b| - 1];
      ConcatAppend(a, init);
      assert ab[..|ab| - 1] == a + init;
      assert ab[|ab| - 1] == b[|b| - 1];
      calc {
        Concat(ab);
        Concat(a + init) + b[|b| - 1];
        Concat(a) + Concat(init) + b[|b| - 1];
        Concat(a) + (Concat(init) + b[|b| - 1]);
      }
    }
  }

  /** Joining the pieces of a split with the separator gives back the string. */
  lemma {:induction false} JoinSplit(s: string, c: char)
    ensures Join(Split(s, c), [c]) == s
  {
    if s == [] {
    } else if s[0] == c {
      JoinSplit(s[1..], c);
      assert Split(s, c) == [""] + Split(s[1..], c);
    } else {
      JoinSplit(s[1..], c);
      var rest := Split(s[1..], c);
      if |rest| == 1 {
        assert Join(Split(s, c), [c]) == [s[0]] + rest[0];
      } else {
        assert Join(Split(s, c), [c]) == [s[0]] + rest[0] + [c] + Join(rest[1..], [c]);
        assert Join(rest, [c]) == rest[0] + [c] + Join(rest[1..], [c]);
      }
      assert s == [s[0]] + s[1..];
    }
  }

  /** A piece free of the separator followed by the separator splits off as one piece. */
  lemma {:induction false} SplitAfterPiece(p: string, c: char, t: string)
    requires c !in p
    ensures Split(p + [c] + t, c) == [p] + Split(t, c)
  {
    if p == [] {
      assert p + [c] + t == [c] + t;
      assert ([c] + t)[1..] == t;
    } else {
      SplitAfterPiece(p[1..], c, t);
      assert (p + [c] + t)[1..] == p[1..] + [c] + t;
      assert [p[0]] + p[1..] == p;
    }
  }

  lemma {:induction false} SplitWithout(p: string, c: char)
    requires c !in p
    ensures Split(p, c) == [p]
  {
    if p != [] {
      SplitWithout(p[1..], c);
      assert [p[0]] + p[1..] == p;
    }
  }

  /** Splitting a join of separator-free pieces gives back the pieces. */
  lemma {:induction false} SplitJoin(parts: seq<string>, c: char)
    requires |parts| >= 1
    requires forall i :: 0 <= i < |parts| ==> c !in parts[i]
    ensures Split(Join(parts, [c]), c) == parts
  {
    if |parts| == 1 {
      SplitWithout(parts[0], c);
    } else {
      SplitJoin(parts[1..], c);
      SplitAfterPiece(parts[0], c, Join(parts[1..], [c]));
      assert [parts[0]] + parts[1..] == parts;
    }
  }

  // ---------------------------------------------------------------------
  // Decimal formatting: fmt's %d and strconv.FormatInt(n, 10)
  // ---------------------------------------------------------------------

  predicate IsDigit(c: char)
  {
    '0' <= c <= '9'
  }

  function DigitChar(d: nat): (c: char)
    requires d < 10
    ensures IsDigit(c) && c as int - '0' as int == d
  {
    (d + '0' as int) as char
  }

  /** The decimal numeral of `n`, without leading zeros. */
  function NatToString(n: nat): (s: string)
    ensures |s| >= 1
    ensures forall i :: 0 <= i < |s| ==> IsDigit(s[i])
    ensures s[0] == '0' ==> n == 0 && s == "0"
  {
    if n < 10 then [DigitChar(n)] else NatToString(n / 10) + [DigitChar(n % 10)]
  }

  function DigitValue(c: char): nat
    requires IsDigit(c)
  {
    c as int - '0' as int
  }

  /** The value of a string of decimal digits (the inverse of NatToString). */
  function ParseNat(s: string): nat
    requires forall i :: 0 <= i < |s| ==> IsDigit(s[i])
  {
    if s == [] then 0 else ParseNat(s[..|s| - 1]) * 10 + DigitValue(s[|s| - 1])
  }

  lemma {:induction false} ParseNatToString(n: nat)
    ensures ParseNat(NatToString(n)) == n
  {
    if n >= 10 {
      ParseNatToString(n / 10);
      var s := NatToString(n);
      assert s[..|s| - 1] == NatToString(n / 10);
    }
  }

  /** `%d` of a Go int: an optional minus sign followed by the numeral of the magnitude. */
  function IntToString(n: int): (s: string)
    ensures |s| >= 1 && (s[0] == '-' <==> n < 0)
    ensures forall i :: 0 < i < |s| ==> IsDigit(s[i])
    ensures n >= 0 ==> IsDigit(s[0])
  {
    if n < 0 then "-" + NatToString(-n) else NatToString(n)
  }

  /** Distinct integers are printed differently. */
  lemma IntToStringInjective(m: int, n: int)
    requires IntToString(m) == IntToString(n)
    ensures m == n
  {
    var s := IntToString(m);
    if m < 0 {
      assert n < 0;
      assert s[1..] == NatToString(-m);
      assert s[1..] == NatToString(-n);
      ParseNatToString(-m);
      ParseNatToString(-n);
    } else {
      assert n >= 0;
      assert s == NatToString(m) == NatToString(n);
      ParseNatToString(m);
      ParseNatToString(n);
    }
  }
}

/** String operations the dashboard relies on: ECMAScript's `String.prototype.trim`,
    `Array.prototype.join`, decimal formatting of integers by template literals, and
    Rust's `str::contains`. Strings are sequences of Unicode scalar values. */
module Text {

  /** The WhiteSpace and LineTerminator code points that ECMAScript's `trim` removes: tab,
      line tabulation, form feed, line feed and carriage return (U+0009 to U+000D), the
      space separators, U+2028, U+2029 and the byte order mark. */
  predicate IsSpace(c: char) {
    || '\t' <= c <= '\r'
    || c == ' ' || c == '\U{00A0}' || c == '\U{1680}'
    || '\U{2000}' <= c <= '\U{200A}'
    || c == '\U{2028}' || c == '\U{2029}' || c == '\U{202F}' || c == '\U{205F}'
    || c == '\U{3000}' || c == '\U{FEFF}'
  }

  predicate AllSpace(s: string) {
    forall i :: 0 <= i < |s| ==> IsSpace(s[i])
  }

  /** Neither end of `s` is a space character. */
  predicate HasNoEdgeSpace(s: string) {
    s == [] || (!IsSpace(s[0]) && !IsSpace(s[|s| - 1]))
  }

  /** `r` is `s` with the spaces `s[..a]` and `s[a + |r|..]` cut off. */
  ghost predicate StripsAt(s: string, r: string, a: int) {
    0 <= a && a + |r| <= |s| && s[a..a + |r|] == r && AllSpace(s[..a]) && AllSpace(s[a + |r|..])
  }

  /** `trimStart`: drops the leading spaces and nothing else. */
  function TrimStart(s: string): (r: string)
    ensures |r| <= |s| && r == s[|s| - |r|..]
    ensures r == [] || !IsSpace(r[0])
    ensures AllSpace(s[..|s| - |r|])
  {
    if s != [] && IsSpace(s[0]) then TrimStart(s[1..]) else s
  }

  /** `trimEnd`: drops the trailing spaces and nothing else. */
  function TrimEnd(s: string): (r: string)
    ensures |r| <= |s| && r == s[..|r|]
    ensures r == [] || !IsSpace(r[|r| - 1])
    ensures AllSpace(s[|r|..])
  {
    if s != [] && IsSpace(s[|s| - 1]) then
      var r := TrimEnd(s[..|s| - 1]);
      assert forall i :: |r| <= i < |s| - 1 ==> s[i] == s[..|s| - 1][|r|..][i - |r|];
      r
    else s
  }

  /** `trim`: the longest infix of `s` with no space at either end that is reached by
      cutting off only spaces. */
  function Trim(s: string): (r: string)
    ensures HasNoEdgeSpace(r)
    ensures exists a :: StripsAt(s, r, a)
  {
    TrimStrips(s);
    TrimEnd(TrimStart(s))
  }

  lemma TrimStrips(s: string)
    ensures HasNoEdgeSpace(TrimEnd(TrimStart(s)))
    ensures StripsAt(s, TrimEnd(TrimStart(s)), |s| - |TrimStart(s)|)
  {
    TrimHasNoEdgeSpace(TrimStart(s));
    TrimStripsSlices(s, TrimStart(s), TrimEnd(TrimStart(s)));
  }

  lemma TrimHasNoEdgeSpace(t: string)
    requires t == [] || !IsSpace(t[0])
    ensures HasNoEdgeSpace(TrimEnd(t))
  {
    var r := TrimEnd(t);
    if r != [] {
      assert r[0] == t[0];
    }
  }

  lemma TrimStripsSlices(s: string, t: string, r: string)
    requires |t| <= |s| && t == s[|s| - |t|..] && AllSpace(s[..|s| - |t|])
    requires |r| <= |t| && r == t[..|r|] && AllSpace(t[|r|..])
    ensures StripsAt(s, r, |s| - |t|)
  {
    var a := |s| - |t|;
    assert s[a..][..|r|] == s[a..a + |r|];
    assert s[a + |r|..] == t[|r|..];
  }

  lemma {:induction false} TrimStartNoop(s: string)
    requires s == [] || !IsSpace(s[0])
    ensures TrimStart(s) == s
  {
  }

  lemma {:induction false} TrimEndNoop(s: string)
    requires s == [] || !IsSpace(s[|s| - 1])
    ensures TrimEnd(s) == s
  {
  }

  /** A string with no space at either end is its own trim. */
  lemma TrimNoop(s: string)
    requires HasNoEdgeSpace(s)
    ensures Trim(s) == s
  {
    TrimStartNoop(s);
    TrimEndNoop(s);
  }

  /** Trailing text that is all spaces disappears under `trimEnd`; trailing text with a
      non-space keeps everything before it. */
  lemma {:induction false} TrimEndAppend(u: string, x: string)
    ensures TrimEnd(u + x) == if AllSpace(x) then TrimEnd(u) else u + TrimEnd(x)
    decreases |x|
  {
    if x == [] {
      assert u + x == u;
    } else if IsSpace(x[|x| - 1]) {
      var x' := x[..|x| - 1];
      assert (u + x)[..|u + x| - 1] == u + x';
      TrimEndAppend(u, x');
      assert AllSpace(x) <==> AllSpace(x') by {
        if AllSpace(x') {
          forall i | 0 <= i < |x| ensures IsSpace(x[i]) {
            if i < |x| - 1 { assert x[i] == x'[i]; }
          }
        }
        if AllSpace(x) {
          forall i | 0 <= i < |x'| ensures IsSpace(x'[i]) { assert x'[i] == x[i]; }
        }
      }
    } else {
      assert !AllSpace(x);
      assert (u + x)[|u + x| - 1] == x[|x| - 1];
    }
  }

  lemma SpaceThenAllSpace(x: string)
    ensures AllSpace(" " + x) <==> AllSpace(x)
  {
    if AllSpace(x) {
      forall i | 0 <= i < |" " + x| ensures IsSpace((" " + x)[i]) {
        if i > 0 { assert (" " + x)[i] == x[i - 1]; }
      }
    }
    if AllSpace(" " + x) {
      forall i | 0 <= i < |x| ensures IsSpace(x[i]) { assert x[i] == (" " + x)[i + 1]; }
    }
  }

  /** With `p` free of edge spaces, trimming `p + " " + x` only works on the end. */
  lemma TrimAfterPrefixIsTrimEnd(p: string, x: string)
    requires p != [] && HasNoEdgeSpace(p)
    ensures Trim(p + " " + x) == TrimEnd(p + (" " + x))
  {
    var w := p + " " + x;
    assert w == p + (" " + x);
    assert w[0] == p[0];
    TrimStartNoop(w);
  }

  lemma TrimEndAfterPrefixBlank(p: string, x: string)
    requires p != [] && HasNoEdgeSpace(p) && AllSpace(x)
    ensures TrimEnd(p + (" " + x)) == p
  {
    SpaceThenAllSpace(x);
    TrimEndAppend(p, " " + x);
    TrimEndNoop(p);
  }

  lemma TrimEndAfterPrefixNonBlank(p: string, x: string)
    requires !AllSpace(x)
    ensures TrimEnd(p + (" " + x)) == p + " " + TrimEnd(x)
  {
    SpaceThenAllSpace(x);
    TrimEndAppend(p, " " + x);
    TrimEndAppend(" ", x);
    assert p + (" " + TrimEnd(x)) == p + " " + TrimEnd(x);
  }

  /** Trimming `p + " " + x` where `p` has no edge spaces keeps `p` and the separator
      unless `x` is blank, and then only trims the end of `x`. */
  lemma TrimAfterPrefix(p: string, x: string)
    requires p != [] && HasNoEdgeSpace(p)
    ensures Trim(p + " " + x) == if AllSpace(x) then p else p + " " + TrimEnd(x)
  {
    TrimAfterPrefixIsTrimEnd(p, x);
    if AllSpace(x) {
      TrimEndAfterPrefixBlank(p, x);
    } else {
      TrimEndAfterPrefixNonBlank(p, x);
    }
  }

  /** Sum of the lengths of `parts`. */
  function TotalLength(parts: seq<string>): nat {
    if parts == [] then 0 else |parts[0]| + TotalLength(parts[1..])
  }

  /** `parts.join(sep)`. */
  function Join(parts: seq<string>, sep: string): (r: string)
    ensures parts == [] ==> r == []
    ensures parts != [] ==> |r| == TotalLength(parts) + |sep| * (|parts| - 1)
    ensures parts != [] ==> |parts[0]| <= |r| && r[..|parts[0]|] == parts[0]
    ensures |parts| == 1 ==> r == parts[0]
  {
    if |parts| == 0 then ""
    else if |parts| == 1 then parts[0]
    else parts[0] + sep + Join(parts[1..], sep)
  }

  /** Joining two non-empty lists of parts puts one separator between the two joins;
      with the one-part case this fixes every later part and separator in order. */
  lemma {:induction false} JoinAppend(a: seq<string>, b: seq<string>, sep: string)
    requires a != [] && b != []
    ensures Join(a + b, sep) == Join(a, sep) + sep + Join(b, sep)
    decreases |a|
  {
    assert (a + b)[0] == a[0];
    assert (a + b)[1..] == a[1..] + b;
    if |a| > 1 {
      JoinAppend(a[1..], b, sep);
    }
  }

  /** Three parts joined: each separator sits between two neighbouring parts. */
  lemma JoinThree(a: string, b: string, c: string, sep: string)
    ensures Join([a, b, c], sep) == a + sep + b + sep + c
  {
    assert [a, b, c] == [a] + [b, c];
    JoinAppend([a], [b, c], sep);
    assert [b, c] == [b] + [c];
    JoinAppend([b], [c], sep);
  }

  predicate IsDigit(c: char) {
    '0' <= c <= '9'
  }

  predicate AllDigits(s: string) {
    forall i :: 0 <= i < |s| ==> IsDigit(s[i])
  }

  function DigitChar(d: nat): (c: char)
    requires d < 10
    ensures IsDigit(c) && c as int - '0' as int == d
  {
    (d + '0' as int) as char
  }

  /** The decimal numeral of `n`, without leading zeros. */
  function NatToDecimal(n: nat): (s: string)
    ensures s != [] && AllDigits(s)
    ensures s[0] == '0' ==> n == 0
  {
    if n < 10 then [DigitChar(n)] else NatToDecimal(n / 10) + [DigitChar(n % 10)]
  }

  /** The value of a decimal numeral (the reading `Number(s)` gives a digit string). */
  function DecimalValue(s: string): nat
    requires AllDigits(s)
  {
    if s == [] then 0 else 10 * DecimalValue(s[..|s| - 1]) + (s[|s| - 1] as int - '0' as int)
  }

  /** How a template literal `${n}` shows an integral number of magnitude below 10^21;
      ECMAScript writes larger ones in exponent form, which is not modelled. */
  function IntToDecimal(n: int): (s: string)
    ensures s != []
  {
    if n < 0 then "-" + NatToDecimal(-n) else NatToDecimal(n)
  }

  /** Reads back an optionally signed decimal numeral. */
  function SignedDecimalValue(s: string): int
    requires s != []
    requires AllDigits(s) || (s[0] == '-' && AllDigits(s[1..]))
  {
    if s[0] == '-' then -(DecimalValue(s[1..]) as int) else DecimalValue(s)
  }

  lemma {:induction false} DecimalRoundTrip(n: nat)
    ensures DecimalValue(NatToDecimal(n)) == n
    decreases n
  {
    if n >= 10 {
      var s := NatToDecimal(n);
      DecimalRoundTrip(n / 10);
      assert s[..|s| - 1] == NatToDecimal(n / 10);
    }
  }

  /** Formatting an integer in decimal loses nothing: reading the numeral back gives the
      integer. */
  lemma IntDecimalRoundTrip(n: int)
    ensures var s := IntToDecimal(n);
      (AllDigits(s) || (s[0] == '-' && AllDigits(s[1..]))) && SignedDecimalValue(s) == n
  {
    if n < 0 {
      assert IntToDecimal(n)[1..] == NatToDecimal(-n);
      DecimalRoundTrip(-n);
    } else {
      DecimalRoundTrip(n);
    }
  }


  predicate IsPrefix(p: string, s: string) {
    |p| <= |s| && s[..|p|] == p
  }

  /** `p` occurs in `s` starting at position `i`. */
  ghost predicate OccursAt(s: string, p: string, i: int) {
    0 <= i && i + |p| <= |s| && s[i..i + |p|] == p
  }

  /** Rust's `s.contains(p)` for a string pattern: whether `p` is a substring of `s`
      (the empty pattern is contained in every string). */
  predicate Contains(s: string, p: string)
    decreases |s|
  {
    IsPrefix(p, s) || (s != [] && Contains(s[1..], p))
  }

  lemma {:induction false} ContainsIff(s: string, p: string)
    ensures Contains(s, p) <==> exists i :: OccursAt(s, p, i)
    decreases |s|
  {
    if IsPrefix(p, s) {
      assert OccursAt(s, p, 0);
    } else if s != [] {
      ContainsIff(s[1..], p);
      if exists i :: OccursAt(s[1..], p, i) {
        var i :| OccursAt(s[1..], p, i);
        assert s[i + 1..i + 1 + |p|] == s[1..][i..i + |p|];
        assert OccursAt(s, p, i + 1);
      }
      if exists i :: OccursAt(s, p, i) {
        var i :| OccursAt(s, p, i);
        assert i != 0 by { assert s[..|p|] == s[0..0 + |p|]; }
        assert s[1..][i - 1..i - 1 + |p|] == s[i..i + |p|];
        assert OccursAt(s[1..], p, i - 1);
      }
    }
  }
}

/** The pieces of Python's string built-ins the core relies on: `str.split()` with no
    separator, `str.join`, `str(int)` and slicing. Strings are sequences of Unicode
    scalar values, as Python's `str` is. */
module PyStr {
  import opened Common

  // ---------------------------------------------------------------------------
  // Whitespace and str.split()
  // ---------------------------------------------------------------------------

  /** The characters `str.isspace()` accepts, which are the separators of `str.split()`:
      TAB, LF, VT, FF, CR, the four information separators, SPACE, NEL, NBSP, OGHAM
      SPACE MARK, the typographic spaces U+2000..U+200A, LINE and PARAGRAPH SEPARATOR,
      NARROW NBSP, MEDIUM MATHEMATICAL SPACE and IDEOGRAPHIC SPACE. */
  predicate IsSpace(c: char) {
    var n := c as int;
    (0x09 <= n <= 0x0D) || (0x1C <= n <= 0x20) || n == 0x85 || n == 0xA0 || n == 0x1680
    || (0x2000 <= n <= 0x200A) || n == 0x2028 || n == 0x2029 || n == 0x202F
    || n == 0x205F || n == 0x3000
  }

  predicate NoSpace(s: string) {
    forall k :: 0 <= k < |s| ==> !IsSpace(s[k])
  }

  predicate AllSpace(s: string) {
    forall k :: 0 <= k < |s| ==> IsSpace(s[k])
  }

  /** Length of the longest prefix of `s` that holds no whitespace. */
  function TokenLength(s: string): (n: nat)
    ensures n <= |s| && NoSpace(s[..n])
    ensures n < |s| ==> IsSpace(s[n])
  {
    if s == [] || IsSpace(s[0]) then 0
    else
      var m := TokenLength(s[1..]);
      assert s[..m + 1] == [s[0]] + s[1..][..m];
      m + 1
  }

  /** `s.split()`: the maximal runs of non-whitespace characters, in order. Leading,
      trailing and repeated whitespace produce no empty tokens. */
  function Split(s: string): (tokens: seq<string>)
    ensures forall k :: 0 <= k < |tokens| ==> tokens[k] != [] && NoSpace(tokens[k])
    decreases |s|
  {
    if s == [] then []
    else if IsSpace(s[0]) then Split(s[1..])
    else
      var n := TokenLength(s);
      [s[..n]] + Split(s[n..])
  }

  /** The whitespace runs around the tokens of `Split(s)`: one before the first token,
      one between each two tokens and one after the last. */
  function Gaps(s: string): (gaps: seq<string>)
    ensures |gaps| > 0
    decreases |s|
  {
    if s == [] then [[]]
    else if IsSpace(s[0]) then
      var rest := Gaps(s[1..]);
      [[s[0]] + rest[0]] + rest[1..]
    else
      [[]] + Gaps(s[TokenLength(s)..])
  }

  /** `gaps[0] + tokens[0] + gaps[1] + ... + tokens[n-1] + gaps[n]` */
  function Interleave(gaps: seq<string>, tokens: seq<string>): (s: string)
    requires |gaps| == |tokens| + 1
    decreases tokens
  {
    if tokens == [] then gaps[0]
    else gaps[0] + tokens[0] + Interleave(gaps[1..], tokens[1..])
  }

  /** `s` is made of the `tokens`, which are non-empty and hold no whitespace, separated
      by the `gaps`, which are whitespace only; the gaps between two tokens are not empty. */
  ghost predicate IsTokenization(s: string, gaps: seq<string>, tokens: seq<string>) {
    |gaps| == |tokens| + 1
    && (forall k :: 0 <= k < |gaps| ==> AllSpace(gaps[k]))
    && (forall k :: 0 < k < |tokens| ==> gaps[k] != [])
    && (forall k :: 0 <= k < |tokens| ==> tokens[k] != [] && NoSpace(tokens[k]))
    && s == Interleave(gaps, tokens)
  }

  lemma InterleaveWiden(w: string, gaps: seq<string>, tokens: seq<string>)
    requires |gaps| == |tokens| + 1
    ensures Interleave([w + gaps[0]] + gaps[1..], tokens) == w + Interleave(gaps, tokens)
  {
    var wider := [w + gaps[0]] + gaps[1..];
    if tokens != [] {
      assert wider[1..] == gaps[1..];
    }
  }

  /** Every string is tokenized by what `Split` returns. */
  lemma {:induction false} SplitTokenizes(s: string)
    ensures IsTokenization(s, Gaps(s), Split(s))
    decreases |s|
  {
    if s == [] {
    } else if IsSpace(s[0]) {
      SplitTokenizes(s[1..]);
      TokenizesAfterSpace(s);
    } else {
      SplitTokenizes(s[TokenLength(s)..]);
      TokenizesAfterToken(s);
    }
  }

  lemma TokenizesAfterSpace(s: string)
    requires s != [] && IsSpace(s[0])
    requires IsTokenization(s[1..], Gaps(s[1..]), Split(s[1..]))
    ensures IsTokenization(s, Gaps(s), Split(s))
  {
    assert s == [s[0]] + s[1..];
    UnfoldAfterSpace(s);
    TokenizationSpaceCons(s, s[0], s[1..], Gaps(s[1..]), Split(s[1..]), Gaps(s), Split(s));
  }

  lemma UnfoldAfterSpace(s: string)
    requires s != [] && IsSpace(s[0])
    ensures Gaps(s) == [[s[0]] + Gaps(s[1..])[0]] + Gaps(s[1..])[1..]
    ensures Split(s) == Split(s[1..])
  {
  }

  /** A whitespace character in front of a tokenization widens its first gap. */
  lemma TokenizationSpaceCons(s: string, c: char, rest: string, g: seq<string>, t: seq<string>,
                              gaps: seq<string>, tokens: seq<string>)
    requires s == [c] + rest && IsSpace(c)
    requires IsTokenization(rest, g, t)
    requires gaps == [[c] + g[0]] + g[1..] && tokens == t
    ensures IsTokenization(s, gaps, tokens)
  {
    InterleaveWiden([c], g, t);
    assert gaps[1..] == g[1..];
    assert forall k :: 0 < k < |gaps| ==> gaps[k] == g[k];
  }

  lemma TokenizesAfterToken(s: string)
    requires s != [] && !IsSpace(s[0])
    requires IsTokenization(s[TokenLength(s)..], Gaps(s[TokenLength(s)..]), Split(s[TokenLength(s)..]))
    ensures IsTokenization(s, Gaps(s), Split(s))
  {
    var n := TokenLength(s);
    var rest := s[n..];
    assert s == s[..n] + rest;
    UnfoldAfterToken(s);
    TokenizationCons(s, s[..n], rest, Gaps(rest), Split(rest), Gaps(s), Split(s));
  }

  lemma UnfoldAfterToken(s: string)
    requires s != [] && !IsSpace(s[0])
    ensures Gaps(s) == [[]] + Gaps(s[TokenLength(s)..])
    ensures Split(s) == [s[..TokenLength(s)]] + Split(s[TokenLength(s)..])
  {
  }

  /** A token in front of a tokenization of a string that is empty or starts with
      whitespace. */
  lemma TokenizationCons(s: string, tok: string, rest: string, g: seq<string>, t: seq<string>,
                         gaps: seq<string>, tokens: seq<string>)
    requires s == tok + rest
    requires tok != [] && NoSpace(tok)
    requires IsTokenization(rest, g, t)
    requires rest == [] || IsSpace(rest[0])
    requires gaps == [[]] + g && tokens == [tok] + t
    ensures IsTokenization(s, gaps, tokens)
  {
    assert gaps[1..] == g && tokens[1..] == t;
    assert Interleave(gaps, tokens) == tok + Interleave(g, t);
    forall k | 0 < k < |tokens|
      ensures gaps[k] != []
    {
      if k == 1 {
        assert rest == g[0] + t[0] + Interleave(g[1..], t[1..]);
        assert rest[0] == (g[0] + t[0])[0];
      } else {
        assert gaps[k] == g[k - 1];
      }
    }
  }

  lemma {:induction false} SplitSkipSpace(w: string, x: string)
    requires AllSpace(w)
    ensures Split(w + x) == Split(x)
    decreases |w|
  {
    if w == [] {
      assert w + x == x;
    } else {
      assert (w + x)[1..] == w[1..] + x;
      SplitSkipSpace(w[1..], x);
    }
  }

  lemma {:induction false} TokenLengthOfToken(t: string, x: string)
    requires NoSpace(t)
    requires x == [] || IsSpace(x[0])
    ensures TokenLength(t + x) == |t|
    decreases |t|
  {
    if t == [] {
      assert t + x == x;
    } else {
      assert (t + x)[1..] == t[1..] + x;
      TokenLengthOfToken(t[1..], x);
    }
  }

  /** A token followed by whitespace (or by nothing) is split off whole. */
  lemma SplitToken(t: string, x: string)
    requires t != [] && NoSpace(t)
    requires x == [] || IsSpace(x[0])
    ensures Split(t + x) == [t] + Split(x)
  {
    TokenLengthOfToken(t, x);
    assert (t + x)[..|t|] == t && (t + x)[|t|..] == x;
  }

  /** The tokens of any tokenization of `s` are exactly `Split(s)`: together with
      `SplitTokenizes`, this characterizes `Split` without reference to its body. */
  lemma {:induction false} TokenizationIsSplit(s: string, gaps: seq<string>, tokens: seq<string>)
    requires IsTokenization(s, gaps, tokens)
    ensures tokens == Split(s)
    decreases tokens
  {
    if tokens == [] {
      assert s + [] == s;
      SplitSkipSpace(s, []);
    } else {
      var rest := Interleave(gaps[1..], tokens[1..]);
      TokenizationTail(s, gaps, tokens);
      TokenizationIsSplit(rest, gaps[1..], tokens[1..]);
      SplitToken(tokens[0], rest);
      SplitSkipSpace(gaps[0], tokens[0] + rest);
    }
  }

  /** Dropping the first gap and token of a tokenization leaves a tokenization of a
      string that is empty or starts with whitespace. */
  lemma TokenizationTail(s: string, gaps: seq<string>, tokens: seq<string>)
    requires IsTokenization(s, gaps, tokens) && tokens != []
    ensures var rest := Interleave(gaps[1..], tokens[1..]);
      && IsTokenization(rest, gaps[1..], tokens[1..])
      && (rest == [] || IsSpace(rest[0]))
      && s == gaps[0] + (tokens[0] + rest)
  {
    var rest := Interleave(gaps[1..], tokens[1..]);
    if tokens[1..] != [] {
      assert rest == gaps[1] + tokens[1] + Interleave(gaps[2..], tokens[2..]);
      assert rest[0] == gaps[1][0];
    }
  }

  /** `s.split() == []` exactly when `s` is whitespace only (or empty). */
  lemma SplitEmptyIff(s: string)
    ensures Split(s) == [] <==> AllSpace(s)
  {
    if Split(s) == [] {
      SplitTokenizes(s);
    }
    if AllSpace(s) {
      assert s + [] == s;
      SplitSkipSpace(s, []);
    }
  }

  /** A non-empty string without whitespace splits into itself. */
  lemma SplitSingle(t: string)
    requires t != [] && NoSpace(t)
    ensures Split(t) == [t]
  {
    assert t + [] == t;
    SplitToken(t, []);
  }

  // ---------------------------------------------------------------------------
  // str.join
  // ---------------------------------------------------------------------------

  /** `sep.join(parts)` */
  function Join(sep: string, parts: seq<string>): (joined: string) {
    if |parts| == 0 then []
    else if |parts| == 1 then parts[0]
    else parts[0] + sep + Join(sep, parts[1..])
  }

  lemma {:induction false} JoinNoSpace(sep: string, parts: seq<string>)
    requires NoSpace(sep)
    requires forall k :: 0 <= k < |parts| ==> NoSpace(parts[k])
    ensures NoSpace(Join(sep, parts))
  {
    if |parts| > 1 {
      JoinNoSpace(sep, parts[1..]);
    }
  }

  /** The joined string starts with the first part. */
  lemma JoinStartsWithFirst(sep: string, parts: seq<string>)
    requires |parts| > 0
    ensures |parts[0]| <= |Join(sep, parts)| && Join(sep, parts)[..|parts[0]|] == parts[0]
  {
  }

  // ---------------------------------------------------------------------------
  // str(int) and its inverse
  // ---------------------------------------------------------------------------

  predicate IsDigit(c: char) {
    '0' <= c <= '9'
  }

  predicate AllDigits(s: string) {
    forall k :: 0 <= k < |s| ==> IsDigit(s[k])
  }

  function DigitChar(d: nat): (c: char)
    requires d < 10
    ensures IsDigit(c)
  {
    (48 + d) as char
  }

  function DigitValue(c: char): (d: nat)
    requires IsDigit(c)
  {
    c as int - 48
  }

  /** Decimal digits of `n`, most significant first, without leading zeros. */
  function NatToDecimal(n: nat): (s: string)
    ensures s != [] && AllDigits(s)
  {
    if n < 10 then [DigitChar(n)] else NatToDecimal(n / 10) + [DigitChar(n % 10)]
  }

  /** `str(n)` (also what an f-string renders) for an int. */
  function IntToDecimal(n: int): (s: string)
    ensures s != []
  {
    if n < 0 then "-" + NatToDecimal(-n) else NatToDecimal(n)
  }

  function ParseDigits(s: string): (n: nat)
    requires AllDigits(s)
  {
    if s == [] then 0 else ParseDigits(s[..|s| - 1]) * 10 + DigitValue(s[|s| - 1])
  }

  /** `int(s)` restricted to an optional minus sign and at least one digit. */
  function ParseInt(s: string): (r: Option<int>) {
    if |s| > 1 && s[0] == '-' && AllDigits(s[1..]) then
      var v: int := 0 - ParseDigits(s[1..]) as int;
      Some(v)
    else if s != [] && AllDigits(s) then Some(ParseDigits(s))
    else None
  }

  lemma {:induction false} NatToDecimalRoundTrip(n: nat)
    ensures ParseDigits(NatToDecimal(n)) == n
  {
    if n >= 10 {
      var s := NatToDecimal(n);
      assert s[..|s| - 1] == NatToDecimal(n / 10);
      NatToDecimalRoundTrip(n / 10);
    }
  }

  /** `int(str(n)) == n` */
  lemma IntToDecimalRoundTrip(n: int)
    ensures ParseInt(IntToDecimal(n)) == Some(n)
  {
    var s := IntToDecimal(n);
    if n < 0 {
      var digits := NatToDecimal(-n);
      assert s == "-" + digits && s[1..] == digits;
      assert |s| > 1 && s[0] == '-' && AllDigits(s[1..]);
      NatToDecimalRoundTrip(-n);
    } else {
      assert s[0] != '-';
      NatToDecimalRoundTrip(n);
    }
  }

  lemma IntToDecimalInjective(m: int, n: int)
    requires IntToDecimal(m) == IntToDecimal(n)
    ensures m == n
  {
    IntToDecimalRoundTrip(m);
    IntToDecimalRoundTrip(n);
  }

  // ---------------------------------------------------------------------------
  // Slicing and searching
  // ---------------------------------------------------------------------------

  /** `s[:n]` for a non-negative `n` */
  function Take(s: string, n: nat): (r: string)
    ensures |r| <= n && r <= s
    ensures |s| <= n ==> r == s
  {
    if |s| <= n then s else s[..n]
  }

  predicate HasPrefix(s: string, p: string) {
    |p| <= |s| && s[..|p|] == p
  }

  /** Index of the first occurrence of `c` in `s`, or `|s|` when there is none. */
  function IndexOf(s: string, c: char): (i: nat)
    ensures i <= |s| && (i < |s| ==> s[i] == c)
    ensures forall k :: 0 <= k < i ==> s[k] != c
  {
    if s == [] || s[0] == c then 0 else 1 + IndexOf(s[1..], c)
  }

  lemma IndexOfAt(x: string, y: string, c: char)
    requires c !in x && y != [] && y[0] == c
    ensures IndexOf(x + y, c) == |x|
  {
    assert (x + y)[|x|] == c;
    assert forall k :: 0 <= k < |x| ==> (x + y)[k] == x[k];
  }

  /** `s.removeprefix(p)` when `s` starts with `p`, and `None` otherwise. */
  function StripPrefix(s: string, p: string): (r: Option<string>)
    ensures r.Some? ==> s == p + r.value
  {
    if HasPrefix(s, p) then
      assert s == s[..|p|] + s[|p|..];
      Some(s[|p|..])
    else None
  }

  lemma StripPrefixConcat(p: string, s: string)
    ensures StripPrefix(p + s, p) == Some(s)
  {
    assert (p + s)[..|p|] == p;
    assert (p + s)[|p|..] == s;
  }

  /** `s` cut before its first occurrence of `c`; the second part is empty if `c` does not occur. */
  function CutBefore(s: string, c: char): (r: (string, string))
    ensures r.0 + r.1 == s && c !in r.0
    ensures r.1 == [] || r.1[0] == c
  {
    var i := IndexOf(s, c);
    assert s == s[..i] + s[i..];
    (s[..i], s[i..])
  }

  lemma CutBeforeConcat(x: string, y: string, c: char)
    requires c !in x && y != [] && y[0] == c
    ensures CutBefore(x + y, c) == (x, y)
  {
    IndexOfAt(x, y, c);
    assert (x + y)[..|x|] == x && (x + y)[|x|..] == y;
  }

  /** Cutting at the first `c` is unambiguous: if neither `a` nor `b` holds `c`, then
      `a + [c] + x == b + [c] + y` forces `a == b` and `x == y`. */
  lemma CutAtFirst(c: char, a: string, x: string, b: string, y: string)
    requires c !in a && c !in b
    requires a + [c] + x == b + [c] + y
    ensures a == b && x == y
  {
    var w := a + [c] + x;
    IndexOfAt(a, [c] + x, c);
    IndexOfAt(b, [c] + y, c);
    assert a + ([c] + x) == w && b + ([c] + y) == w;
    assert a == w[..|a|] && b == w[..|b|];
    assert x == w[|a| + 1..] && y == w[|b| + 1..];
  }
}

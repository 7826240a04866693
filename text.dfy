/** The pieces of Rust's standard library that the parking lot relies on, written
    out over `string` (a sequence of characters): `str::split_ascii_whitespace`,
    `str::parse::<usize>`, decimal formatting of integers, `join` and an ASCII
    stand-in for `str::to_lowercase`. */
module Text {
  import opened Wrappers

  // ---------------------------------------------------------------------------
  // Tokenising (str::split_ascii_whitespace)
  // ---------------------------------------------------------------------------

  /** `u8::is_ascii_whitespace`: space, horizontal tab, line feed, form feed and
      carriage return (the vertical tab is not included). */
  predicate IsAsciiWhitespace(c: char) {
    c == ' ' || c == '\t' || c == '\n' || c == 12 as char || c == '\r'
  }

  predicate NoWhitespace(s: string) {
    forall i :: 0 <= i < |s| ==> !IsAsciiWhitespace(s[i])
  }

  predicate AllWhitespace(s: string) {
    forall i :: 0 <= i < |s| ==> IsAsciiWhitespace(s[i])
  }

  /** A token is what the splitter can yield: non-empty, with no whitespace in it. */
  predicate IsToken(s: string) {
    |s| > 0 && NoWhitespace(s)
  }

  /** Length of the longest whitespace-free prefix of `s`. */
  function WordLen(s: string): (n: nat)
    ensures n <= |s|
    ensures NoWhitespace(s[..n])
    ensures n < |s| ==> IsAsciiWhitespace(s[n])
  {
    if s == [] || IsAsciiWhitespace(s[0]) then 0 else 1 + WordLen(s[1..])
  }

  /** The maximal whitespace-free runs of `s`, left to right. */
  function Tokens(s: string): (ts: seq<string>)
    ensures forall i :: 0 <= i < |ts| ==> IsToken(ts[i])
    decreases |s|
  {
    if s == [] then []
    else if IsAsciiWhitespace(s[0]) then Tokens(s[1..])
    else
      var n := WordLen(s);
      [s[..n]] + Tokens(s[n..])
  }

  /** `ls.join(sep)`: the first item followed, for each further item, by the
      separator and that item; so the text starts with the first item. */
  function Join(ls: seq<string>, sep: string): (r: string)
    ensures |ls| > 0 ==> |ls[0]| <= |r| && r[..|ls[0]|] == ls[0]
  {
    if ls == [] then ""
    else if |ls| == 1 then ls[0]
    else ls[0] + sep + Join(ls[1..], sep)
  }

  lemma {:induction false} WordLenAppend(s: string, r: string)
    requires WordLen(s) < |s| || (r != [] && IsAsciiWhitespace(r[0]))
    ensures WordLen(s + r) == WordLen(s)
  {
    if s != [] && !IsAsciiWhitespace(s[0]) {
      assert (s + r)[1..] == s[1..] + r;
      WordLenAppend(s[1..], r);
    }
  }

  lemma {:induction false} WordLenOfToken(t: string, r: string)
    requires NoWhitespace(t)
    requires r == [] || IsAsciiWhitespace(r[0])
    ensures WordLen(t + r) == |t|
  {
    if t == [] {
      assert t + r == r;
    } else {
      assert (t + r)[1..] == t[1..] + r;
      WordLenOfToken(t[1..], r);
    }
  }

  /** A token followed by nothing or by whitespace is split off whole. */
  lemma TokensOfTokenThen(t: string, r: string)
    requires IsToken(t)
    requires r == [] || IsAsciiWhitespace(r[0])
    ensures Tokens(t + r) == [t] + Tokens(r)
  {
    WordLenOfToken(t, r);
    assert (t + r)[..|t|] == t;
    assert (t + r)[|t|..] == r;
  }

  /** Splitting undoes joining with a single space: the tokens of "a b c" are
      exactly a, b and c. */
  lemma {:induction false} TokensOfJoin(ts: seq<string>)
    requires forall i :: 0 <= i < |ts| ==> IsToken(ts[i])
    ensures Tokens(Join(ts, " ")) == ts
  {
    if |ts| == 1 {
      TokensOfTokenThen(ts[0], "");
      assert ts[0] + "" == ts[0];
    } else if |ts| > 1 {
      var rest := " " + Join(ts[1..], " ");
      TokensOfTokenThen(ts[0], rest);
      assert rest[1..] == Join(ts[1..], " ");
      TokensOfJoin(ts[1..]);
      assert Join(ts, " ") == ts[0] + rest;
    }
  }

  lemma {:induction false} TokensTrailingWhitespace(s: string, c: char)
    requires IsAsciiWhitespace(c)
    ensures Tokens(s + [c]) == Tokens(s)
    decreases |s|
  {
    if s == [] {
      assert ([] + [c])[1..] == [];
    } else if IsAsciiWhitespace(s[0]) {
      assert (s + [c])[1..] == s[1..] + [c];
      TokensTrailingWhitespace(s[1..], c);
    } else {
      var n := WordLen(s);
      WordLenAppend(s, [c]);
      assert (s + [c])[..n] == s[..n];
      assert (s + [c])[n..] == s[n..] + [c];
      TokensTrailingWhitespace(s[n..], c);
    }
  }

  /** Runs of whitespace before and after a command are ignored: padding a line
      on either side (a trailing newline, leading blanks) does not change its
      tokens. */
  lemma {:induction false} TokensIgnorePadding(before: string, s: string, after: string)
    requires AllWhitespace(before) && AllWhitespace(after)
    ensures Tokens(before + s + after) == Tokens(s)
    decreases |before| + |after|
  {
    if before != [] {
      assert (before + s + after)[1..] == before[1..] + s + after;
      TokensIgnorePadding(before[1..], s, after);
    } else if after != [] {
      var n := |after|;
      assert before + s + after == (s + after[..n - 1]) + [after[n - 1]];
      TokensTrailingWhitespace(s + after[..n - 1], after[n - 1]);
      assert before + s + after[..n - 1] == s + after[..n - 1];
      TokensIgnorePadding(before, s, after[..n - 1]);
    } else {
      assert before + s + after == s;
    }
  }

  // ---------------------------------------------------------------------------
  // Decimal numbers (str::parse::<usize> and integer formatting)
  // ---------------------------------------------------------------------------

  predicate IsDigit(c: char) {
    '0' <= c <= '9'
  }

  predicate AllDigits(s: string) {
    forall i :: 0 <= i < |s| ==> IsDigit(s[i])
  }

  function DigitValue(c: char): (d: nat)
    requires IsDigit(c)
    ensures d < 10
  {
    c as int - '0' as int
  }

  function DigitChar(d: nat): (c: char)
    requires d < 10
    ensures IsDigit(c) && DigitValue(c) == d
  {
    ('0' as int + d) as char
  }

  /** The value of a string of decimal digits, most significant first. */
  function DigitsValue(s: string): nat
    requires AllDigits(s)
  {
    if s == [] then 0
    else DigitsValue(s[..|s| - 1]) * 10 + DigitValue(s[|s| - 1])
  }

  /** Decimal formatting of a natural number, without leading zeros. */
  function NatToString(n: nat): (s: string)
    ensures |s| > 0 && AllDigits(s)
    ensures n < 10 <==> |s| == 1
    ensures |s| > 1 ==> s[0] != '0'
  {
    if n < 10 then [DigitChar(n)] else NatToString(n / 10) + [DigitChar(n % 10)]
  }

  /** The digits that `usize::from_str` reads: everything after one leading '+'
      when something follows it, otherwise the whole string. */
  function UnsignedBody(s: string): string
  {
    if |s| > 1 && s[0] == '+' then s[1..] else s
  }

  /** `s.parse::<usize>()`: an optional '+' and then one or more decimal digits;
      anything else is rejected. */
  function ParseUsize(s: string): (r: Option<nat>)
    ensures r.Some? <==> |UnsignedBody(s)| > 0 && AllDigits(UnsignedBody(s))
    ensures r.Some? ==> r.value == DigitsValue(UnsignedBody(s))
  {
    var body := UnsignedBody(s);
    if |body| > 0 && AllDigits(body) then Some(DigitsValue(body)) else None
  }

  lemma {:induction false} DigitsValueOfNatToString(n: nat)
    ensures DigitsValue(NatToString(n)) == n
  {
    if n >= 10 {
      var s := NatToString(n);
      assert s[..|s| - 1] == NatToString(n / 10);
      DigitsValueOfNatToString(n / 10);
    }
  }

  /** Parsing reads back what formatting printed. */
  lemma ParseUsizeOfNatToString(n: nat)
    ensures ParseUsize(NatToString(n)) == Some(n)
  {
    DigitsValueOfNatToString(n);
  }

  /** Formatting is injective: distinct numbers print differently. */
  lemma NatToStringInjective(m: nat, n: nat)
    requires NatToString(m) == NatToString(n)
    ensures m == n
  {
    DigitsValueOfNatToString(m);
    DigitsValueOfNatToString(n);
  }

  /** No digit is whitespace, so a formatted number is a token. */
  lemma NatToStringIsToken(n: nat)
    ensures IsToken(NatToString(n))
  {
  }

  // ---------------------------------------------------------------------------
  // Lines (join with "\n")
  // ---------------------------------------------------------------------------

  /** Length of the prefix of `s` before the first `sep`. */
  function UntilSep(s: string, sep: char): (n: nat)
    ensures n <= |s|
    ensures sep !in s[..n]
    ensures n < |s| ==> s[n] == sep
  {
    if s == [] || s[0] == sep then 0 else 1 + UntilSep(s[1..], sep)
  }

  /** `s.split(sep)`: the pieces between separators, always at least one. */
  function Split(s: string, sep: char): (ps: seq<string>)
    ensures |ps| > 0
    decreases |s|
  {
    var n := UntilSep(s, sep);
    if n == |s| then [s] else [s[..n]] + Split(s[n + 1..], sep)
  }

  lemma {:induction false} UntilSepOfLine(l: string, r: string, sep: char)
    requires sep !in l
    requires r == [] || r[0] == sep
    ensures UntilSep(l + r, sep) == |l|
  {
    if l == [] {
      assert l + r == r;
    } else {
      assert (l + r)[1..] == l[1..] + r;
      UntilSepOfLine(l[1..], r, sep);
    }
  }

  /** Splitting a separator-free line followed by a separator and more text
      gives the line, then the pieces of the rest. */
  lemma SplitOfCons(l: string, rest: string, sep: char)
    requires sep !in l
    ensures Split(l + ([sep] + rest), sep) == [l] + Split(rest, sep)
  {
    var joined := l + ([sep] + rest);
    UntilSepOfLine(l, [sep] + rest, sep);
    var n := |l|;
    assert joined[..n] == l;
    assert joined[n + 1..] == rest;
  }

  /** Joining lines that hold no separator loses nothing: splitting the joined
      text on the separator gives the lines back. */
  lemma {:induction false} SplitOfJoin(ls: seq<string>, sep: char)
    requires |ls| > 0
    requires forall i :: 0 <= i < |ls| ==> sep !in ls[i]
    ensures Split(Join(ls, [sep]), sep) == ls
  {
    if |ls| == 1 {
      UntilSepOfLine(ls[0], "", sep);
      assert ls[0] + "" == ls[0];
    } else {
      var rest := Join(ls[1..], [sep]);
      assert Join(ls, [sep]) == ls[0] + ([sep] + rest);
      SplitOfCons(ls[0], rest, sep);
      SplitOfJoin(ls[1..], sep);
      assert ls == [ls[0]] + ls[1..];
    }
  }

  // ---------------------------------------------------------------------------
  // Case folding (ASCII stand-in for str::to_lowercase)
  // ---------------------------------------------------------------------------

  function LowerChar(c: char): char {
    if 'A' <= c <= 'Z' then (c as int - 'A' as int + 'a' as int) as char else c
  }

  function Lower(s: string): (r: string)
    ensures |r| == |s|
  {
    if s == [] then [] else [LowerChar(s[0])] + Lower(s[1..])
  }

  lemma {:induction false} LowerIdempotent(s: string)
    ensures Lower(Lower(s)) == Lower(s)
  {
    if s != [] {
      LowerIdempotent(s[1..]);
    }
  }
}

/**
 The Python `str` operations the bot relies on, over `string` (a sequence of
 Unicode scalar values; a Python `str` may also hold lone surrogates, which
 have no `char` here): `isspace`, `split()` with no
 argument, `startswith`, `lstrip` of one character, `replace` of one
 character, `join`, and `str()` of a non-negative integer.
 */
module Strings {

  /** Python's `str.isspace` for one code point: the characters that
      `str.split()` with no argument treats as separators. */
  predicate IsSpace(c: char)
  {
    || c == ' ' || c == '\t' || c == '\n' || c == '\r'
    || c == '\U{B}' || c == '\U{C}'
    || ('\U{1C}' <= c <= '\U{1F}')
    || c == '\U{85}' || c == '\U{A0}' || c == '\U{1680}'
    || ('\U{2000}' <= c <= '\U{200A}')
    || c == '\U{2028}' || c == '\U{2029}' || c == '\U{202F}' || c == '\U{205F}'
    || c == '\U{3000}'
  }

  /** A token as `split()` produces it: non-empty and free of whitespace. */
  predicate IsToken(t: string)
  {
    t != [] && forall i :: 0 <= i < |t| ==> !IsSpace(t[i])
  }

  predicate StartsWith(s: string, prefix: string)
  {
    |prefix| <= |s| && s[..|prefix|] == prefix
  }

  /** Length of the leading run of non-whitespace characters of `s`. */
  function WordLength(s: string): (n: nat)
    ensures n <= |s|
    ensures forall i :: 0 <= i < n ==> !IsSpace(s[i])
    ensures n < |s| ==> IsSpace(s[n])
  {
    if s == [] || IsSpace(s[0]) then 0 else 1 + WordLength(s[1..])
  }

  /** Python's `s.split()`: the maximal runs of non-whitespace characters,
      left to right; leading, trailing and repeated whitespace yield no
      empty token. */
  function Split(s: string): (tokens: seq<string>)
    ensures forall k :: 0 <= k < |tokens| ==> IsToken(tokens[k])
    decreases |s|
  {
    if s == [] then []
    else if IsSpace(s[0]) then Split(s[1..])
    else
      var n := WordLength(s);
      [s[..n]] + Split(s[n..])
  }

  /** Python's `sep.join(parts)`. */
  function Join(parts: seq<string>, sep: string): string
  {
    if parts == [] then ""
    else if |parts| == 1 then parts[0]
    else parts[0] + sep + Join(parts[1..], sep)
  }

  /** The characters of `s` that are not whitespace, in order. */
  function NonSpace(s: string): (r: string)
    ensures |r| <= |s|
    ensures forall i :: 0 <= i < |r| ==> !IsSpace(r[i])
  {
    if s == [] then []
    else if IsSpace(s[0]) then NonSpace(s[1..])
    else [s[0]] + NonSpace(s[1..])
  }

  /** Concatenation of a sequence of strings. */
  function Concat(parts: seq<string>): string
  {
    if parts == [] then "" else parts[0] + Concat(parts[1..])
  }

  /** Python's `s.lstrip(c)` for a single character `c`. */
  function LStrip(s: string, c: char): (r: string)
    ensures |r| <= |s| && r == s[|s| - |r|..]
    ensures forall i :: 0 <= i < |s| - |r| ==> s[i] == c
    ensures r == [] || r[0] != c
  {
    if s != [] && s[0] == c then LStrip(s[1..], c) else s
  }

  /** Python's `s.replace(from, to)` where both are single characters. */
  function Replace(s: string, from: char, to: char): (r: string)
    ensures |r| == |s|
    ensures forall i :: 0 <= i < |s| ==> r[i] == if s[i] == from then to else s[i]
  {
    if s == [] then [] else [if s[0] == from then to else s[0]] + Replace(s[1..], from, to)
  }

  predicate IsDigit(c: char)
  {
    '0' <= c <= '9'
  }

  function DigitChar(d: nat): (c: char)
    requires d < 10
    ensures IsDigit(c) && (c as int) - ('0' as int) == d
  {
    ['0', '1', '2', '3', '4', '5', '6', '7', '8', '9'][d]
  }

  /** Python's `str(n)` (equivalently `f"{n}"`) for a non-negative integer:
      its decimal digits with no leading zero. */
  function DecimalString(n: nat): (r: string)
    ensures r != []
    ensures forall i :: 0 <= i < |r| ==> IsDigit(r[i])
    ensures r[0] == '0' ==> n == 0 && |r| == 1
  {
    if n < 10 then [DigitChar(n)] else DecimalString(n / 10) + [DigitChar(n % 10)]
  }

  /** The number a string of decimal digits denotes (Python's `int(s)`). */
  function DecimalValue(s: string): int
    requires forall i :: 0 <= i < |s| ==> IsDigit(s[i])
  {
    if s == [] then 0
    else DecimalValue(s[..|s| - 1]) * 10 + ((s[|s| - 1] as int) - ('0' as int))
  }

  /** `str` then `int` gives the number back. */
  lemma {:induction false} DecimalRoundTrip(n: nat)
    ensures DecimalValue(DecimalString(n)) == n
  {
    var r := DecimalString(n);
    if n >= 10 {
      DecimalRoundTrip(n / 10);
      assert r[..|r| - 1] == DecimalString(n / 10);
    }
  }

  /** Distinct numbers have distinct decimal strings. */
  lemma DecimalStringInjective(m: nat, n: nat)
    requires DecimalString(m) == DecimalString(n)
    ensures m == n
  {
    DecimalRoundTrip(m);
    DecimalRoundTrip(n);
  }

  /** The leading word of a token followed by whitespace (or nothing) is the
      whole token. */
  lemma {:induction false} WordLengthOfToken(t: string, rest: string)
    requires IsToken(t)
    requires rest == [] || IsSpace(rest[0])
    ensures WordLength(t + rest) == |t|
  {
    if |t| > 1 {
      assert (t + rest)[1..] == t[1..] + rest;
      WordLengthOfToken(t[1..], rest);
    } else {
      assert (t + rest)[1..] == rest;
    }
  }

  /** Splitting a token followed by a separator gives that token, then the
      tokens of what follows. */
  lemma SplitToken(t: string, sep: string, rest: string)
    requires IsToken(t)
    requires sep == [] ==> rest == []
    requires sep != [] ==> IsSpace(sep[0]) && |sep| == 1
    ensures Split(t + sep + rest) == [t] + Split(rest)
  {
    var s := t + sep + rest;
    WordLengthOfToken(t, sep + rest);
    assert t + sep + rest == t + (sep + rest);
    assert s[..|t|] == t;
    assert s[|t|..] == sep + rest;
    if sep != [] {
      assert (sep + rest)[1..] == rest;
    } else {
      assert sep + rest == [];
    }
  }

  /** A word stops at the first whitespace character. */
  lemma {:induction false} WordLengthAtSpace(a: string, c: char, b: string)
    requires IsSpace(c)
    ensures WordLength(a + [c] + b) == WordLength(a)
  {
    var s := a + [c] + b;
    if a == [] {
      assert s[0] == c;
    } else {
      assert s[0] == a[0];
      if !IsSpace(a[0]) {
        assert s[1..] == a[1..] + [c] + b;
        WordLengthAtSpace(a[1..], c, b);
      }
    }
  }

  /** Any whitespace character separates words: `split()` of two texts
      joined by one whitespace character is the words of the first, then
      the words of the second. */
  lemma {:induction false} SplitAtSpace(a: string, c: char, b: string)
    requires IsSpace(c)
    ensures Split(a + [c] + b) == Split(a) + Split(b)
    decreases |a|
  {
    var s := a + [c] + b;
    if a == [] {
      assert s[0] == c && s[1..] == b;
    } else if IsSpace(a[0]) {
      assert s[0] == a[0] && s[1..] == a[1..] + [c] + b;
      SplitAtSpace(a[1..], c, b);
    } else {
      assert s[0] == a[0];
      var m := WordLength(a);
      WordLengthAtSpace(a, c, b);
      assert s[..m] == a[..m];
      assert s[m..] == a[m..] + [c] + b;
      SplitAtSpace(a[m..], c, b);
    }
  }

  /** `" ".join` then `split()` gives the tokens back. */
  lemma {:induction false} SplitJoin(tokens: seq<string>)
    requires forall k :: 0 <= k < |tokens| ==> IsToken(tokens[k])
    ensures Split(Join(tokens, " ")) == tokens
  {
    if |tokens| == 1 {
      SplitToken(tokens[0], "", "");
      assert tokens[0] + "" + "" == tokens[0];
    } else if |tokens| > 1 {
      SplitJoin(tokens[1..]);
      SplitToken(tokens[0], " ", Join(tokens[1..], " "));
    }
  }

  /** A line of words joined by single spaces starts with its first word. */
  lemma {:induction false} JoinStartsWithFirst(tokens: seq<string>)
    requires tokens != []
    ensures StartsWith(Join(tokens, " "), tokens[0])
  {
    if |tokens| > 1 {
      var rest := " " + Join(tokens[1..], " ");
      assert Join(tokens, " ") == tokens[0] + rest;
      assert (tokens[0] + rest)[..|tokens[0]|] == tokens[0];
    }
  }

  /** `split()` loses exactly the whitespace: its tokens, glued together,
      are the non-whitespace characters of the input, in order. */
  lemma {:induction false} SplitKeepsNonSpace(s: string)
    ensures Concat(Split(s)) == NonSpace(s)
    decreases |s|
  {
    if s != [] {
      if IsSpace(s[0]) {
        SplitKeepsNonSpace(s[1..]);
      } else {
        var n := WordLength(s);
        SplitKeepsNonSpace(s[n..]);
        NonSpaceOfWord(s, n);
        assert Concat(Split(s)) == s[..n] + Concat(Split(s[n..]));
      }
    }
  }

  /** A leading run of `n` non-whitespace characters survives `NonSpace`
      unchanged. */
  lemma {:induction false} NonSpaceOfWord(s: string, n: nat)
    requires n <= |s|
    requires forall i :: 0 <= i < n ==> !IsSpace(s[i])
    ensures NonSpace(s) == s[..n] + NonSpace(s[n..])
  {
    if n > 0 {
      NonSpaceOfWord(s[1..], n - 1);
      assert !IsSpace(s[0]);
      assert NonSpace(s) == [s[0]] + NonSpace(s[1..]);
      assert s[1..][..n - 1] == s[1..n];
      assert s[1..][n - 1..] == s[n..];
      assert s[..n] == [s[0]] + s[1..n];
    }
  }
}

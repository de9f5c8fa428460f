/**
  The Python string operations the recorder node applies to its inputs:
  `str.split(sep)`, `str.split()` with no argument, `str.strip()` and the
  `float()` conversion of a string.
*/
module PyText {
  import opened Python

  /** The characters Python's `str.isspace()` accepts; `split()` and `strip()` without arguments use them. */
  predicate IsSpace(c: char)
  {
    || c == ' '
    || ('\t' <= c <= '\r')
    || ('\U{1c}' <= c <= '\U{1f}')
    || c == '\U{85}'
    || c == '\U{a0}'
    || c == '\U{1680}'
    || ('\U{2000}' <= c <= '\U{200a}')
    || c == '\U{2028}'
    || c == '\U{2029}'
    || c == '\U{202f}'
    || c == '\U{205f}'
    || c == '\U{3000}'
  }

  predicate IsDigit(c: char)
  {
    '0' <= c <= '9'
  }

  predicate AllDigits(s: string)
  {
    forall k :: 0 <= k < |s| ==> IsDigit(s[k])
  }

  predicate NoSpace(s: string)
  {
    forall k :: 0 <= k < |s| ==> !IsSpace(s[k])
  }

  /** Position of the first occurrence of `c` in `s`. */
  function IndexOf(s: string, c: char): (i: nat)
    requires c in s
    ensures i < |s| && s[i] == c && c !in s[..i]
  {
    if s[0] == c then 0 else 1 + IndexOf(s[1..], c)
  }

  // ---------------------------------------------------------------------
  // str.split(sep)
  // ---------------------------------------------------------------------

  /** `s.split(sep)` for a one-character separator: never empty, one more piece than separators. */
  function SplitOn(s: string, sep: char): (parts: seq<string>)
    ensures |parts| >= 1
    ensures forall k :: 0 <= k < |parts| ==> sep !in parts[k]
    decreases |s|
  {
    if sep !in s then [s]
    else
      var i := IndexOf(s, sep);
      [s[..i]] + SplitOn(s[i + 1..], sep)
  }

  /** `sep.join(parts)`. */
  function Join(parts: seq<string>, sep: char): string
  {
    if |parts| == 0 then ""
    else if |parts| == 1 then parts[0]
    else parts[0] + [sep] + Join(parts[1..], sep)
  }

  /** Splitting then joining on the same separator gives back the string. */
  lemma {:induction false} JoinSplitOn(s: string, sep: char)
    ensures Join(SplitOn(s, sep), sep) == s
    decreases |s|
  {
    if sep in s {
      var i := IndexOf(s, sep);
      var rest := s[i + 1..];
      JoinSplitOn(rest, sep);
      assert SplitOn(s, sep) == [s[..i]] + SplitOn(rest, sep);
      assert s == s[..i] + [sep] + rest;
    }
  }

  /** A piece free of the separator, followed by the separator, splits off as the first part. */
  lemma SplitOnCons(head: string, sep: char, rest: string)
    requires sep !in head
    ensures SplitOn(head + [sep] + rest, sep) == [head] + SplitOn(rest, sep)
  {
    var s := head + [sep] + rest;
    assert s[|head|] == sep;
    assert s[..|head|] == head;
    var i := IndexOf(s, sep);
    assert i == |head| by {
      assert forall k :: 0 <= k < |head| ==> s[k] == head[k];
    }
    assert s[i + 1..] == rest;
  }

  /** Joining pieces that do not contain the separator, then splitting, gives back the pieces. */
  lemma {:induction false} SplitOnJoin(parts: seq<string>, sep: char)
    requires |parts| >= 1
    requires forall k :: 0 <= k < |parts| ==> sep !in parts[k]
    ensures SplitOn(Join(parts, sep), sep) == parts
    decreases |parts|
  {
    if |parts| > 1 {
      SplitOnCons(parts[0], sep, Join(parts[1..], sep));
      SplitOnJoin(parts[1..], sep);
      assert [parts[0]] + parts[1..] == parts;
    }
  }

  /** Occurrences of `c` in `s`. */
  function Count(s: string, c: char): nat
  {
    if s == [] then 0 else (if s[0] == c then 1 else 0) + Count(s[1..], c)
  }

  lemma {:induction false} CountAppend(a: string, b: string, c: char)
    ensures Count(a + b, c) == Count(a, c) + Count(b, c)
    decreases |a|
  {
    if a != [] {
      assert (a + b)[1..] == a[1..] + b;
      CountAppend(a[1..], b, c);
    } else {
      assert a + b == b;
    }
  }

  lemma {:induction false} CountAbsent(s: string, c: char)
    requires c !in s
    ensures Count(s, c) == 0
    decreases |s|
  {
    if s != [] {
      assert c !in s[1..];
      CountAbsent(s[1..], c);
    }
  }

  /** `s.split(sep)` has exactly one more piece than `s` has separators. */
  lemma {:induction false} SplitOnLength(s: string, sep: char)
    ensures |SplitOn(s, sep)| == Count(s, sep) + 1
    decreases |s|
  {
    if sep !in s {
      CountAbsent(s, sep);
    } else {
      var i := IndexOf(s, sep);
      SplitOnLength(s[i + 1..], sep);
      assert s == s[..i] + ([sep] + s[i + 1..]);
      CountAppend(s[..i], [sep] + s[i + 1..], sep);
      CountAppend([sep], s[i + 1..], sep);
      CountAbsent(s[..i], sep);
      assert [sep][1..] == [];
    }
  }

  // ---------------------------------------------------------------------
  // str.split() and str.strip()
  // ---------------------------------------------------------------------

  /** Length of the leading run of non-whitespace characters. */
  function WordLength(s: string): (n: nat)
    ensures n <= |s|
    ensures NoSpace(s[..n])
    ensures n < |s| ==> IsSpace(s[n])
  {
    if s == [] || IsSpace(s[0]) then 0 else 1 + WordLength(s[1..])
  }

  /** `s.split()`: the maximal runs of non-whitespace characters, in order. */
  function SplitWhitespace(s: string): (words: seq<string>)
    ensures forall k :: 0 <= k < |words| ==> |words[k]| > 0 && NoSpace(words[k])
    decreases |s|
  {
    if s == [] then []
    else if IsSpace(s[0]) then SplitWhitespace(s[1..])
    else
      var n := WordLength(s);
      [s[..n]] + SplitWhitespace(s[n..])
  }

  /** `' '.join(words)`. */
  function JoinSpaced(words: seq<string>): string
  {
    Join(words, ' ')
  }

  lemma {:induction false} WordLengthOfWord(w: string, rest: string)
    requires NoSpace(w)
    requires rest == [] || IsSpace(rest[0])
    ensures WordLength(w + rest) == |w|
    decreases |w|
  {
    if w == [] {
      assert w + rest == rest;
    } else {
      assert (w + rest)[1..] == w[1..] + rest;
      WordLengthOfWord(w[1..], rest);
    }
  }

  /** Space-separated words split back into the same words. */
  lemma {:induction false} SplitWhitespaceJoin(words: seq<string>)
    requires forall k :: 0 <= k < |words| ==> |words[k]| > 0 && NoSpace(words[k])
    ensures SplitWhitespace(JoinSpaced(words)) == words
    decreases |words|
  {
    if |words| == 1 {
      WordLengthOfWord(words[0], []);
      assert words[0] + [] == words[0];
      assert words[0][|words[0]|..] == [];
    } else if |words| > 1 {
      var rest := JoinSpaced(words[1..]);
      var s := words[0] + [' '] + rest;
      assert s == words[0] + ([' '] + rest);
      WordLengthOfWord(words[0], [' '] + rest);
      assert s[..|words[0]|] == words[0];
      assert s[|words[0]|..] == [' '] + rest;
      assert ([' '] + rest)[1..] == rest;
      SplitWhitespaceJoin(words[1..]);
      assert SplitWhitespace(s) == [words[0]] + words[1..];
    }
  }

  /** `s.lstrip()`: the suffix left after removing the leading whitespace, all of it and nothing else. */
  function LStrip(s: string): (r: string)
    ensures r == [] || !IsSpace(r[0])
    ensures |r| <= |s| && r == s[|s| - |r|..]
    ensures forall k :: 0 <= k < |s| - |r| ==> IsSpace(s[k])
  {
    if s != [] && IsSpace(s[0]) then LStrip(s[1..]) else s
  }

  /** `s.rstrip()`: the prefix left after removing the trailing whitespace, all of it and nothing else. */
  function RStrip(s: string): (r: string)
    ensures r == [] || !IsSpace(r[|r| - 1])
    ensures |r| <= |s| && r == s[..|r|]
    ensures forall k :: |r| <= k < |s| ==> IsSpace(s[k])
  {
    if s != [] && IsSpace(s[|s| - 1]) then RStrip(s[..|s| - 1]) else s
  }

  /** `s.strip()`. */
  function Strip(s: string): string
  {
    RStrip(LStrip(s))
  }

  /** The words concatenated, with nothing between them. */
  function Concat(words: seq<string>): string
  {
    if words == [] then [] else words[0] + Concat(words[1..])
  }

  /** The non-whitespace characters of `s`, in order. */
  function NonSpace(s: string): string
  {
    if s == [] then [] else (if IsSpace(s[0]) then [] else [s[0]]) + NonSpace(s[1..])
  }

  lemma {:induction false} NonSpaceAppend(a: string, b: string)
    ensures NonSpace(a + b) == NonSpace(a) + NonSpace(b)
    decreases |a|
  {
    if a == [] {
      assert a + b == b;
    } else {
      assert (a + b)[1..] == a[1..] + b;
      NonSpaceAppend(a[1..], b);
    }
  }

  lemma {:induction false} NonSpaceOfWord(w: string)
    requires NoSpace(w)
    ensures NonSpace(w) == w
    decreases |w|
  {
    if w != [] {
      NonSpaceOfWord(w[1..]);
    }
  }

  /** `split()` keeps every non-whitespace character, in order, and nothing else. */
  lemma {:induction false} SplitWhitespaceKeepsChars(s: string)
    ensures Concat(SplitWhitespace(s)) == NonSpace(s)
    decreases |s|
  {
    if s != [] {
      if IsSpace(s[0]) {
        SplitWhitespaceKeepsChars(s[1..]);
      } else {
        var n := WordLength(s);
        SplitWhitespaceKeepsChars(s[n..]);
        var words := SplitWhitespace(s);
        assert words == [s[..n]] + SplitWhitespace(s[n..]);
        assert words[1..] == SplitWhitespace(s[n..]);
        assert s == s[..n] + s[n..];
        NonSpaceAppend(s[..n], s[n..]);
        NonSpaceOfWord(s[..n]);
      }
    }
  }

  /** A non-empty run without whitespace is one word. */
  lemma SplitWhitespaceWord(w: string)
    requires |w| > 0 && NoSpace(w)
    ensures SplitWhitespace(w) == [w]
  {
    WordLengthOfWord(w, []);
    assert w + [] == w;
    assert w[|w|..] == [];
  }

  /** A string of whitespace only has no words. */
  lemma {:induction false} SplitWhitespaceAllSpace(s: string)
    requires forall k :: 0 <= k < |s| ==> IsSpace(s[k])
    ensures SplitWhitespace(s) == []
    decreases |s|
  {
    if s != [] {
      SplitWhitespaceAllSpace(s[1..]);
    }
  }

  /** A string is its prefix followed by the rest, and around a position by the character there. */
  lemma Around<T>(s: seq<T>, n: nat)
    requires n <= |s|
    ensures s == s[..n] + s[n..]
    ensures n < |s| ==> s == s[..n] + [s[n]] + s[n + 1..]
  {
  }

  lemma Regroup<T>(w: seq<T>, m: seq<T>, c: T, b: seq<T>)
    ensures w + m + [c] + b == w + (m + [c] + b)
  {
  }

  /** A word followed by whitespace or the end is the first word, and the rest is split on its own. */
  lemma SplitWhitespaceLeadingWord(w: string, rest: string)
    requires |w| > 0 && NoSpace(w)
    requires rest == [] || IsSpace(rest[0])
    ensures SplitWhitespace(w + rest) == [w] + SplitWhitespace(rest)
  {
    var s := w + rest;
    WordLengthOfWord(w, rest);
    assert s[0] == w[0];
    assert s[..|w|] == w;
    assert s[|w|..] == rest;
  }

  /** The word case of `SplitWhitespaceAtSpace`: a leading word stays in front of the words after it. */
  lemma SplitWhitespaceAtSpaceWord(w: string, more: string, c: char, b: string)
    requires |w| > 0 && NoSpace(w) && IsSpace(c)
    requires more == [] || IsSpace(more[0])
    requires SplitWhitespace(more + [c] + b) == SplitWhitespace(more) + SplitWhitespace(b)
    ensures SplitWhitespace(w + more + [c] + b) == SplitWhitespace(w + more) + SplitWhitespace(b)
  {
    Regroup(w, more, c, b);
    SplitWhitespaceLeadingWord(w, more + [c] + b);
    SplitWhitespaceLeadingWord(w, more);
  }

  /** The whitespace case of `SplitWhitespaceAtSpace`: a leading whitespace character is dropped on both sides. */
  lemma SplitWhitespaceAtSpaceGap(a: string, c: char, b: string)
    requires a != [] && IsSpace(a[0])
    ensures SplitWhitespace(a + [c] + b) == SplitWhitespace(a[1..] + [c] + b)
    ensures SplitWhitespace(a) == SplitWhitespace(a[1..])
  {
    assert (a + [c] + b)[1..] == a[1..] + [c] + b;
  }

  /**
    Every whitespace character separates words, whatever its kind and however
    many surround it: the words of `a + [c] + b` are those of `a` followed by
    those of `b`. With `SplitWhitespaceWord` and `SplitWhitespaceAllSpace`
    this determines `split()` on every string.
  */
  lemma {:induction false} SplitWhitespaceAtSpace(a: string, c: char, b: string)
    requires IsSpace(c)
    ensures SplitWhitespace(a + [c] + b) == SplitWhitespace(a) + SplitWhitespace(b)
    decreases |a|
  {
    if a == [] {
      assert a + [c] + b == [c] + b;
      assert ([c] + b)[1..] == b;
    } else if IsSpace(a[0]) {
      SplitWhitespaceAtSpaceGap(a, c, b);
      SplitWhitespaceAtSpace(a[1..], c, b);
    } else {
      var m := WordLength(a);
      var w, more := a[..m], a[m..];
      Around(a, m);
      SplitWhitespaceAtSpace(more, c, b);
      SplitWhitespaceAtSpaceWord(w, more, c, b);
    }
  }

  /** Leading whitespace does not change the words. */
  lemma {:induction false} SplitWhitespaceSkipsLeading(s: string, k: nat)
    requires k <= |s|
    requires forall j :: 0 <= j < k ==> IsSpace(s[j])
    ensures SplitWhitespace(s) == SplitWhitespace(s[k..])
    decreases k
  {
    if k > 0 {
      SplitWhitespaceSkipsLeading(s[1..], k - 1);
      assert s[1..][k - 1..] == s[k..];
    }
  }

  /** Trailing whitespace does not change the words. */
  lemma SplitWhitespaceSkipsTrailing(s: string, n: nat)
    requires n <= |s|
    requires forall j :: n <= j < |s| ==> IsSpace(s[j])
    ensures SplitWhitespace(s) == SplitWhitespace(s[..n])
  {
    var head := s[..n];
    if n < |s| {
      var tail := s[n + 1..];
      Around(s, n);
      SplitWhitespaceAtSpace(head, s[n], tail);
      SplitWhitespaceAllSpace(tail);
      var words := SplitWhitespace(head);
      assert SplitWhitespace(s) == words + [];
      assert words + [] == words;
    } else {
      assert head == s;
    }
  }

  /** Stripping before `split()` changes nothing: `s.strip().split() == s.split()`. */
  lemma StripThenSplit(s: string)
    ensures SplitWhitespace(Strip(s)) == SplitWhitespace(s)
  {
    var l := LStrip(s);
    SplitWhitespaceSkipsLeading(s, |s| - |l|);
    SplitWhitespaceSkipsTrailing(l, |RStrip(l)|);
  }

  // ---------------------------------------------------------------------
  // float(s)
  // ---------------------------------------------------------------------

  /** The natural number written by a string of decimal digits. */
  function DigitsValue(d: string): nat
    requires AllDigits(d)
  {
    if d == [] then 0
    else 10 * DigitsValue(d[..|d| - 1]) + (d[|d| - 1] as int - '0' as int)
  }

  function Pow10(n: nat): (p: nat)
    ensures p >= 1
  {
    if n == 0 then 1 else 10 * Pow10(n - 1)
  }

  /** Multiplies `v` by ten to the power `e`. */
  function ScaleBy10(v: real, e: int): real
  {
    if e >= 0 then v * (Pow10(e) as real) else v / (Pow10(-e) as real)
  }

  /** A mantissa: digits, optionally with one decimal point, and at least one digit. */
  function ParseMantissa(m: string): Option<real>
  {
    if '.' in m then
      var i := IndexOf(m, '.');
      var whole, fraction := m[..i], m[i + 1..];
      if AllDigits(whole) && AllDigits(fraction) && |whole| + |fraction| > 0 then
        Some((DigitsValue(whole + fraction) as real) / (Pow10(|fraction|) as real))
      else None
    else if AllDigits(m) && |m| > 0 then Some(DigitsValue(m) as real)
    else None
  }

  /** An exponent after `e`/`E`: an optional sign and at least one digit. */
  function ParseExponent(e: string): Option<int>
  {
    if |e| > 0 && (e[0] == '+' || e[0] == '-') then
      var d := e[1..];
      if AllDigits(d) && |d| > 0 then
        Some(if e[0] == '-' then -(DigitsValue(d) as int) else DigitsValue(d))
      else None
    else if AllDigits(e) && |e| > 0 then Some(DigitsValue(e))
    else None
  }

  /** A number without sign: a mantissa, optionally followed by an exponent. */
  function ParseUnsigned(t: string): Option<real>
  {
    if 'e' in t || 'E' in t then
      var i := if 'e' in t && ('E' !in t || IndexOf(t, 'e') < IndexOf(t, 'E'))
               then IndexOf(t, 'e') else IndexOf(t, 'E');
      match (ParseMantissa(t[..i]), ParseExponent(t[i + 1..]))
      case (Some(v), Some(e)) => Some(ScaleBy10(v, e))
      case _ => None
    else ParseMantissa(t)
  }

  /**
    A reference reading of `float(s)` for finite ASCII decimal literals
    (optional sign, point and exponent, surrounded by optional whitespace);
    `None` for every other string. The node's handlers take `float` as a
    parameter instead (`Builtins.float`); this function and its lemmas
    describe what that parameter does on the strings it covers.
  */
  function ParseFloat(s: string): Option<real>
  {
    var t := Strip(s);
    if |t| > 0 && (t[0] == '+' || t[0] == '-') then
      match ParseUnsigned(t[1..])
      case Some(v) => Some(if t[0] == '-' then -v else v)
      case None => None
    else ParseUnsigned(t)
  }

  predicate HasDigit(s: string)
  {
    exists k :: 0 <= k < |s| && IsDigit(s[k])
  }

  lemma NoDigitInPart(s: string, i: int, j: int)
    requires 0 <= i <= j <= |s|
    requires !HasDigit(s)
    ensures !HasDigit(s[i..j])
  {
    forall k | 0 <= k < j - i
      ensures !IsDigit(s[i..j][k])
    {
      assert s[i..j][k] == s[i + k];
    }
  }

  lemma NoDigitMantissa(m: string)
    requires !HasDigit(m)
    ensures ParseMantissa(m) == None
  {
    if '.' in m {
      var i := IndexOf(m, '.');
      var whole, fraction := m[..i], m[i + 1..];
      if |whole| > 0 {
        assert whole[0] == m[0] && !IsDigit(m[0]);
      }
      if |fraction| > 0 {
        assert fraction[0] == m[i + 1] && !IsDigit(m[i + 1]);
      }
    } else if |m| > 0 {
      assert !IsDigit(m[0]);
    }
  }

  /**
    `ParseFloat` rejects every string that contains no ASCII decimal digit
    (`'abc'`, `''`, `'True'`). Python's `float()` also accepts `'nan'`,
    `'inf'` and `'infinity'`, and non-ASCII decimal digits, which
    `ParseFloat` does not model.
  */
  lemma ParseFloatNeedsDigit(s: string)
    requires !HasDigit(s)
    ensures ParseFloat(s) == None
  {
    var t := Strip(s);
    var l := LStrip(s);
    NoDigitInPart(s, |s| - |l|, |s|);
    NoDigitInPart(l, 0, |t|);
    var u := if |t| > 0 && (t[0] == '+' || t[0] == '-') then t[1..] else t;
    NoDigitInPart(t, |t| - |u|, |t|);
    if 'e' in u || 'E' in u {
      var i := if 'e' in u && ('E' !in u || IndexOf(u, 'e') < IndexOf(u, 'E'))
               then IndexOf(u, 'e') else IndexOf(u, 'E');
      NoDigitInPart(u, 0, i);
      NoDigitMantissa(u[..i]);
    } else {
      NoDigitMantissa(u);
    }
  }

  /** Stripping leaves a string alone when neither end is whitespace. */
  lemma StripUnchanged(s: string)
    requires |s| > 0 && !IsSpace(s[0]) && !IsSpace(s[|s| - 1])
    ensures Strip(s) == s
  {
    assert LStrip(s) == s;
  }

  lemma DigitsHaveNoMarks(d: string)
    requires AllDigits(d)
    ensures '.' !in d && 'e' !in d && 'E' !in d && '+' !in d && '-' !in d
  {
    forall k | 0 <= k < |d|
      ensures d[k] != '.' && d[k] != 'e' && d[k] != 'E' && d[k] != '+' && d[k] != '-'
    {
      assert IsDigit(d[k]);
    }
  }

  /** A plain string of digits converts to the number it writes. */
  lemma ParseFloatDigits(d: string)
    requires |d| > 0 && AllDigits(d)
    ensures ParseFloat(d) == Some(DigitsValue(d) as real)
  {
    assert IsDigit(d[0]) && IsDigit(d[|d| - 1]);
    StripUnchanged(d);
    DigitsHaveNoMarks(d);
    assert ParseUnsigned(d) == ParseMantissa(d);
  }
}

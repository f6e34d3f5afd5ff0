/** String operations of Python and JavaScript that the models rely on, written out
    over `seq<char>`: prefix and substring tests, `split` on one character and `join`,
    whitespace trimming, ASCII case mapping, decimal rendering of integers, two-argument
    POSIX path joining and `str.replace`. */
module Text {

  predicate StartsWith(s: string, p: string)
  {
    |p| <= |s| && s[..|p|] == p
  }

  predicate EndsWith(s: string, p: string)
  {
    |p| <= |s| && s[|s| - |p|..] == p
  }

  /** Python `t in s`, JavaScript `s.includes(t)`. */
  predicate Contains(s: string, t: string)
    decreases |s|
  {
    StartsWith(s, t) || (|s| > 0 && Contains(s[1..], t))
  }

  lemma {:induction false} ContainsAt(s: string, t: string, i: nat)
    requires i + |t| <= |s| && s[i..i + |t|] == t
    ensures Contains(s, t)
    decreases i
  {
    if i > 0 {
      assert s[1..][i - 1..i - 1 + |t|] == s[i..i + |t|];
      ContainsAt(s[1..], t, i - 1);
    } else {
      assert s[..|t|] == t;
    }
  }

  lemma {:induction false} ContainsWitness(s: string, t: string) returns (i: nat)
    requires Contains(s, t)
    ensures i + |t| <= |s| && s[i..i + |t|] == t
    decreases |s|
  {
    if StartsWith(s, t) {
      i := 0;
    } else {
      var j := ContainsWitness(s[1..], t);
      i := j + 1;
      assert s[i..i + |t|] == s[1..][j..j + |t|];
    }
  }

  /** A text in which `c` does not occur contains no block that holds `c`. */
  lemma {:induction false} NoCharNoContains(s: string, t: string, c: char)
    requires c !in s && c in t
    ensures !Contains(s, t)
    decreases |s|
  {
    if |t| <= |s| {
      assert c !in s[..|t|];
    }
    if |s| > 0 {
      NoCharNoContains(s[1..], t, c);
    }
  }

  /** `parts.join(sep)` in JavaScript, `sep.join(parts)` in Python. */
  function Join(parts: seq<string>, sep: string): string
  {
    if |parts| == 0 then ""
    else if |parts| == 1 then parts[0]
    else parts[0] + sep + Join(parts[1..], sep)
  }

  /** `s.split(c)` for a one-character separator, in Python and in JavaScript alike:
      every part is free of `c`, joining the parts with `c` gives `s` back, and there
      is exactly one part when `c` does not occur. */
  function Split(s: string, c: char): (r: seq<string>)
    ensures |r| >= 1
    ensures forall i :: 0 <= i < |r| ==> c !in r[i]
    ensures Join(r, [c]) == s
    ensures |r| == 1 <==> c !in s
    decreases |s|
  {
    if s == [] then [""]
    else
      var rest := Split(s[1..], c);
      if s[0] == c then [""] + rest
      else
        assert c !in [s[0]] + rest[0];
        [[s[0]] + rest[0]] + rest[1..]
  }

  /** Splitting a part that is free of `c` and then the rest of the text. */
  lemma {:induction false} SplitPrefix(x: string, y: string, c: char)
    requires c !in x
    ensures Split(x + [c] + y, c) == [x] + Split(y, c)
    decreases |x|
  {
    var s := x + [c] + y;
    if x == [] {
      assert s == [c] + y;
      assert s[0] == c && s[1..] == y;
    } else {
      assert s[0] == x[0] && x[0] != c;
      assert s[1..] == x[1..] + [c] + y;
      SplitPrefix(x[1..], y, c);
      var rest := Split(s[1..], c);
      assert rest[0] == x[1..] && rest[1..] == Split(y, c);
      assert Split(s, c) == [[s[0]] + rest[0]] + rest[1..];
      assert [x[0]] + x[1..] == x;
    }
  }

  lemma {:induction false} SplitNoSeparator(x: string, c: char)
    requires c !in x
    ensures Split(x, c) == [x]
  {
  }

  /** `split` undoes `join` when no part holds the separator. */
  lemma {:induction false} SplitJoin(parts: seq<string>, c: char)
    requires |parts| >= 1
    requires forall i :: 0 <= i < |parts| ==> c !in parts[i]
    ensures Split(Join(parts, [c]), c) == parts
    decreases |parts|
  {
    if |parts| == 1 {
      SplitNoSeparator(parts[0], c);
    } else {
      SplitJoin(parts[1..], c);
      assert Join(parts, [c]) == parts[0] + [c] + Join(parts[1..], [c]);
      SplitPrefix(parts[0], Join(parts[1..], [c]), c);
      assert [parts[0]] + parts[1..] == parts;
    }
  }

  /** Each line followed by a line feed. */
  function Unlines(lines: seq<string>): string
  {
    if lines == [] then "" else lines[0] + "\n" + Unlines(lines[1..])
  }

  lemma {:induction false} UnlinesAppend(a: seq<string>, b: seq<string>)
    ensures Unlines(a + b) == Unlines(a) + Unlines(b)
    decreases |a|
  {
    if a != [] {
      UnlinesAppend(a[1..], b);
      assert (a + b)[1..] == a[1..] + b;
    } else {
      assert a + b == b;
    }
  }

  /** Parts joined by line feeds: every part but the last is a complete line. */
  lemma {:induction false} JoinAsUnlines(r: seq<string>)
    requires |r| >= 1
    ensures Join(r, "\n") == Unlines(r[..|r| - 1]) + r[|r| - 1]
    decreases |r|
  {
    if |r| > 1 {
      JoinAsUnlines(r[1..]);
      assert r[1..][..|r[1..]| - 1] == r[1..|r| - 1];
      assert r[..|r| - 1] == [r[0]] + r[1..|r| - 1];
      assert r[..|r| - 1][1..] == r[1..|r| - 1];
    }
  }

  /** Characters Python's `str.isspace` accepts, which `str.strip()` removes. */
  predicate PyWhitespace(ch: char)
  {
    ch == ' ' || ('\t' <= ch <= '\r') || ('\U{1C}' <= ch <= '\U{1F}') || ch == '\U{85}'
    || ch == '\U{A0}' || ch == '\U{1680}' || ('\U{2000}' <= ch <= '\U{200A}')
    || ch == '\U{2028}' || ch == '\U{2029}' || ch == '\U{202F}' || ch == '\U{205F}'
    || ch == '\U{3000}'
  }

  /** White space and line terminators that JavaScript's `String.prototype.trim` removes. */
  predicate JsWhitespace(ch: char)
  {
    ch == ' ' || ('\t' <= ch <= '\r') || ch == '\U{A0}' || ch == '\U{FEFF}'
    || ch == '\U{1680}' || ('\U{2000}' <= ch <= '\U{200A}') || ch == '\U{2028}'
    || ch == '\U{2029}' || ch == '\U{202F}' || ch == '\U{205F}' || ch == '\U{3000}'
  }

  function TrimLeft(s: string, isSpace: char -> bool): string
    decreases |s|
  {
    if s != [] && isSpace(s[0]) then TrimLeft(s[1..], isSpace) else s
  }

  function TrimRight(s: string, isSpace: char -> bool): string
    decreases |s|
  {
    if s != [] && isSpace(s[|s| - 1]) then TrimRight(s[..|s| - 1], isSpace) else s
  }

  function Trim(s: string, isSpace: char -> bool): string
  {
    TrimRight(TrimLeft(s, isSpace), isSpace)
  }

  /** Python `s.strip()`. */
  function PyStrip(s: string): string { Trim(s, PyWhitespace) }

  /** JavaScript `s.trim()`. */
  function JsTrim(s: string): string { Trim(s, JsWhitespace) }

  /** Trimming leaves nothing exactly when every character is white space. */
  lemma {:induction false} TrimEmptyIff(s: string, isSpace: char -> bool)
    ensures Trim(s, isSpace) == "" <==> forall i :: 0 <= i < |s| ==> isSpace(s[i])
  {
    TrimLeftEmptyIff(s, isSpace);
    TrimRightEmptyIff(TrimLeft(s, isSpace), isSpace);
  }

  lemma {:induction false} TrimLeftEmptyIff(s: string, isSpace: char -> bool)
    ensures TrimLeft(s, isSpace) == "" <==> forall i :: 0 <= i < |s| ==> isSpace(s[i])
    ensures TrimLeft(s, isSpace) != "" ==> !isSpace(TrimLeft(s, isSpace)[0])
    decreases |s|
  {
    if s != [] && isSpace(s[0]) {
      TrimLeftEmptyIff(s[1..], isSpace);
      assert forall i :: 0 < i < |s| ==> s[i] == s[1..][i - 1];
    }
  }

  lemma {:induction false} TrimRightEmptyIff(s: string, isSpace: char -> bool)
    ensures TrimRight(s, isSpace) == "" <==> forall i :: 0 <= i < |s| ==> isSpace(s[i])
    decreases |s|
  {
    if s != [] && isSpace(s[|s| - 1]) {
      TrimRightEmptyIff(s[..|s| - 1], isSpace);
      assert forall i :: 0 <= i < |s| - 1 ==> s[i] == s[..|s| - 1][i];
    } else if s != [] {
      assert !isSpace(s[|s| - 1]);
    }
  }

  function LowerChar(ch: char): char
  {
    if 'A' <= ch <= 'Z' then (ch as int + 32) as char else ch
  }

  function UpperChar(ch: char): char
  {
    if 'a' <= ch <= 'z' then (ch as int - 32) as char else ch
  }

  /** Python `s.lower()` / JavaScript `s.toLowerCase()` on ASCII letters. */
  function Lower(s: string): string
  {
    seq(|s|, i requires 0 <= i < |s| => LowerChar(s[i]))
  }

  /** Python `s.upper()` on ASCII letters. */
  function Upper(s: string): string
  {
    seq(|s|, i requires 0 <= i < |s| => UpperChar(s[i]))
  }

  function DigitChar(d: nat): char
    requires d < 10
  {
    ('0' as int + d) as char
  }

  function NatToString(n: nat): string
    decreases n
  {
    if n < 10 then [DigitChar(n)] else NatToString(n / 10) + [DigitChar(n % 10)]
  }

  predicate IsDigit(ch: char)
  {
    '0' <= ch <= '9'
  }

  /** The value of a string of decimal digits. */
  function DigitsValue(s: string): nat
    requires forall i :: 0 <= i < |s| ==> IsDigit(s[i])
    decreases |s|
  {
    if s == [] then 0
    else
      assert IsDigit(s[|s| - 1]);
      DigitsValue(s[..|s| - 1]) * 10 + (s[|s| - 1] as int - '0' as int)
  }

  /** The canonical decimal text of a natural number: digits only, and no leading zero
      unless the text is "0". */
  predicate Canonical(s: string)
  {
    && s != []
    && (forall i :: 0 <= i < |s| ==> IsDigit(s[i]))
    && (s[0] == '0' ==> |s| == 1)
  }

  /** Reading a canonical text back: `NatToString` undoes it. */
  lemma {:induction false} CanonicalRoundTrip(s: string)
    requires Canonical(s)
    ensures NatToString(DigitsValue(s)) == s
    decreases |s|
  {
    if |s| > 1 {
      var init := s[..|s| - 1];
      assert Canonical(init) by { assert init[0] == s[0]; }
      CanonicalRoundTrip(init);
      LeadingDigitPositive(init);
      var v := DigitsValue(s);
      var d := s[|s| - 1] as int - '0' as int;
      assert v / 10 == DigitsValue(init) && v % 10 == d;
      assert DigitChar(d) == s[|s| - 1];
      assert s == init + [s[|s| - 1]];
    }
  }

  lemma {:induction false} LeadingDigitPositive(s: string)
    requires Canonical(s) && s[0] != '0'
    ensures DigitsValue(s) >= 1
    decreases |s|
  {
    if |s| > 1 {
      var init := s[..|s| - 1];
      assert init[0] == s[0];
      LeadingDigitPositive(init);
    }
  }

  /** Every natural number's text is canonical and reads back as the number. */
  lemma {:induction false} NatToStringCanonical(n: nat)
    ensures Canonical(NatToString(n))
    ensures NatToString(n)[0] == '0' ==> n == 0
    ensures DigitsValue(NatToString(n)) == n
    decreases n
  {
    var s := NatToString(n);
    if n >= 10 {
      NatToStringCanonical(n / 10);
      var init := NatToString(n / 10);
      assert s == init + [DigitChar(n % 10)];
      assert s[..|s| - 1] == init;
      assert s[0] == init[0];
    }
  }

  /** Python `str(n)` and JavaScript `${n}` for an integer. */
  function IntToString(n: int): string
  {
    if n < 0 then "-" + NatToString(-n) else NatToString(n)
  }

  /** Python's `os.path.join(a, b)` on POSIX: an absolute `b` replaces `a`. */
  function PathJoin(a: string, b: string): string
  {
    if StartsWith(b, "/") then b
    else if a == "" || EndsWith(a, "/") then a + b
    else a + "/" + b
  }

  /** Python `s.replace(pat, rep)`: occurrences are replaced left to right without overlap. */
  function ReplaceAll(s: string, pat: string, rep: string): string
    requires pat != ""
    decreases |s|
  {
    if s == [] then []
    else if StartsWith(s, pat) then rep + ReplaceAll(s[|pat|..], pat, rep)
    else [s[0]] + ReplaceAll(s[1..], pat, rep)
  }
}

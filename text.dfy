/**
 * The string primitives the Python code leans on: `str.isspace`, `strip`,
 * `lower` (ASCII letters only), `split()` on whitespace runs, `" ".join`,
 * `int(...)` on text, decimal rendering of integers, `splitlines()` and
 * code-point ordering of strings.
 */
module Text {
  import opened Wrappers

  /** The characters for which Python's `str.isspace()` is true. */
  predicate IsSpace(c: char) {
    || c == ' '
    || ('\t' <= c <= '\r')
    || ('\U{1c}' <= c <= '\U{1f}')
    || c == '\U{85}' || c == '\U{a0}' || c == '\U{1680}'
    || ('\U{2000}' <= c <= '\U{200a}')
    || c == '\U{2028}' || c == '\U{2029}' || c == '\U{202f}' || c == '\U{205f}' || c == '\U{3000}'
  }

  predicate HasNoSpace(s: string) {
    forall i :: 0 <= i < |s| ==> !IsSpace(s[i])
  }

  predicate IsDigit(c: char) {
    '0' <= c <= '9'
  }

  /** `str.lower()` on one character; only ASCII letters are folded. */
  function LowerChar(c: char): (r: char)
    ensures IsSpace(r) <==> IsSpace(c)
    ensures !('A' <= r <= 'Z')
  {
    if 'A' <= c <= 'Z' then (c as int + 32) as char else c
  }

  function Lower(s: string): (r: string)
    ensures |r| == |s|
    ensures forall i :: 0 <= i < |s| ==> r[i] == LowerChar(s[i])
  {
    seq(|s|, i requires 0 <= i < |s| => LowerChar(s[i]))
  }

  /** Every character is already lower case. */
  predicate IsLowered(s: string) {
    forall i :: 0 <= i < |s| ==> LowerChar(s[i]) == s[i]
  }

  lemma LowerOfLowered(s: string)
    requires IsLowered(s)
    ensures Lower(s) == s
  {
  }

  function TrimLeft(s: string): (r: string)
    ensures |r| <= |s|
    ensures r == [] || !IsSpace(r[0])
  {
    if s != [] && IsSpace(s[0]) then TrimLeft(s[1..]) else s
  }

  function TrimRight(s: string): (r: string)
    ensures |r| <= |s| && r == s[..|r|]
    ensures r == [] || !IsSpace(r[|r| - 1])
  {
    if s != [] && IsSpace(s[|s| - 1]) then TrimRight(s[..|s| - 1]) else s
  }

  /** `str.strip()`: drop leading and trailing whitespace. */
  function Strip(s: string): (r: string)
    ensures r == [] || (!IsSpace(r[0]) && !IsSpace(r[|r| - 1]))
  {
    TrimRight(TrimLeft(s))
  }

  /** A string that begins and ends with non-whitespace is its own strip. */
  lemma StripOfTrimmed(s: string)
    requires s == [] || (!IsSpace(s[0]) && !IsSpace(s[|s| - 1]))
    ensures Strip(s) == s
  {
  }

  /** `str.strip()` is blank exactly when every character is whitespace. */
  lemma {:induction false} StripEmptyIffAllSpace(s: string)
    ensures Strip(s) == [] <==> forall i :: 0 <= i < |s| ==> IsSpace(s[i])
  {
    if s != [] && IsSpace(s[0]) {
      StripEmptyIffAllSpace(s[1..]);
      assert forall i :: 1 <= i < |s| ==> s[i] == s[1..][i - 1];
    } else if s != [] {
      TrimRightKeepsFirst(s);
    }
  }

  /** `strip()` only removes characters. */
  lemma {:induction false} StripChars(s: string)
    ensures forall c :: c in Strip(s) ==> c in s
  {
    TrimLeftChars(s);
  }

  lemma {:induction false} TrimLeftChars(s: string)
    ensures forall c :: c in TrimLeft(s) ==> c in s
  {
    if s != [] && IsSpace(s[0]) {
      TrimLeftChars(s[1..]);
    }
  }

  lemma {:induction false} TrimRightKeepsFirst(s: string)
    requires s != [] && !IsSpace(s[0])
    ensures TrimRight(s) != [] && TrimRight(s)[0] == s[0]
  {
    if IsSpace(s[|s| - 1]) {
      TrimRightKeepsFirst(s[..|s| - 1]);
    }
  }

  /** The longest whitespace-free prefix of `s`. */
  function TakeWord(s: string): (r: string)
    ensures |r| <= |s| && r == s[..|r|]
    ensures HasNoSpace(r)
    ensures |r| < |s| ==> IsSpace(s[|r|])
    ensures s != [] && !IsSpace(s[0]) ==> |r| > 0
  {
    if s == [] || IsSpace(s[0]) then [] else [s[0]] + TakeWord(s[1..])
  }

  /** `str.split()` with no separator: the maximal runs of non-whitespace. */
  function Words(s: string): (ws: seq<string>)
    decreases |s|
  {
    if s == [] then []
    else if IsSpace(s[0]) then Words(s[1..])
    else
      var w := TakeWord(s);
      [w] + Words(s[|w|..])
  }

  /** `" ".join(ws)`. */
  function JoinWords(ws: seq<string>): string {
    if |ws| == 0 then ""
    else if |ws| == 1 then ws[0]
    else ws[0] + " " + JoinWords(ws[1..])
  }

  /** `" ".join(value.strip().lower().split())`. */
  function NormalizeSpaces(s: string): string {
    JoinWords(Words(Lower(Strip(s))))
  }

  /** The shape `NormalizeSpaces` produces: lower case, single interior spaces, no other whitespace. */
  predicate IsNormalized(s: string) {
    && IsLowered(s)
    && (forall i :: 0 <= i < |s| && IsSpace(s[i]) ==> s[i] == ' ')
    && (s == [] || (s[0] != ' ' && s[|s| - 1] != ' '))
    && (forall i :: 0 <= i < |s| - 1 && s[i] == ' ' ==> s[i + 1] != ' ')
  }

  predicate GoodWord(w: string) {
    w != [] && HasNoSpace(w) && IsLowered(w)
  }

  lemma {:induction false} WordsAreGood(s: string)
    requires IsLowered(s)
    ensures forall w :: w in Words(s) ==> GoodWord(w)
    decreases |s|
  {
    if s == [] {
    } else if IsSpace(s[0]) {
      WordsAreGood(s[1..]);
    } else {
      var w := TakeWord(s);
      WordsAreGood(s[|w|..]);
    }
  }

  lemma {:induction false} JoinGoodWords(ws: seq<string>)
    requires forall w :: w in ws ==> GoodWord(w)
    ensures IsNormalized(JoinWords(ws))
    ensures ws != [] ==> JoinWords(ws) != [] && !IsSpace(JoinWords(ws)[0])
  {
    if |ws| == 1 {
      assert ws[0] in ws;
    } else if |ws| > 1 {
      var w := ws[0];
      assert w in ws;
      assert forall v :: v in ws[1..] ==> v in ws;
      JoinGoodWords(ws[1..]);
      var tail := JoinWords(ws[1..]);
      var r := w + " " + tail;
      assert r == JoinWords(ws);
      assert r[|r| - 1] == tail[|tail| - 1];
      forall i | 0 <= i < |r| && IsSpace(r[i]) ensures r[i] == ' ' {
        if i > |w| { assert r[i] == tail[i - |w| - 1]; }
      }
      forall i | 0 <= i < |r| - 1 && r[i] == ' ' ensures r[i + 1] != ' ' {
        if i == |w| { assert r[i + 1] == tail[0]; }
        else { assert r[i] == tail[i - |w| - 1]; assert r[i + 1] == tail[i - |w|]; }
      }
      forall i | 0 <= i < |r| ensures LowerChar(r[i]) == r[i] {
        if i < |w| { assert r[i] == w[i]; }
        else if i > |w| { assert r[i] == tail[i - |w| - 1]; }
      }
    }
  }

  /** Splitting a normalised string at its single spaces and joining again gives it back. */
  lemma {:induction false} JoinWordsOfNormalized(s: string)
    requires IsNormalized(s)
    ensures JoinWords(Words(s)) == s
    ensures s != [] ==> Words(s) != []
    decreases |s|
  {
    if s != [] {
      var w := TakeWord(s);
      if |w| < |s| {
        var rest := s[|w| + 1..];
        assert s[|w|] == ' ';
        assert rest != [] && rest[0] != ' ';
        assert s[|w|..][1..] == rest;
        assert Words(s[|w|..]) == Words(rest);
        forall i | 0 <= i < |rest| && IsSpace(rest[i]) ensures rest[i] == ' ' {
          assert rest[i] == s[i + |w| + 1];
        }
        forall i | 0 <= i < |rest| - 1 && rest[i] == ' ' ensures rest[i + 1] != ' ' {
          assert rest[i] == s[i + |w| + 1];
        }
        assert IsNormalized(rest);
        JoinWordsOfNormalized(rest);
        assert s == w + " " + rest;
      } else {
        assert s[|w|..] == [];
      }
    }
  }

  /** The output of `NormalizeSpaces` has the normalised shape. */
  lemma NormalizeSpacesShape(s: string)
    ensures IsNormalized(NormalizeSpaces(s))
  {
    WordsAreGood(Lower(Strip(s)));
    JoinGoodWords(Words(Lower(Strip(s))));
  }

  /** A normalised string is a fixed point of `NormalizeSpaces`. */
  lemma NormalizeSpacesFixes(s: string)
    requires IsNormalized(s)
    ensures NormalizeSpaces(s) == s
  {
    StripOfTrimmed(s);
    LowerOfLowered(s);
    JoinWordsOfNormalized(s);
  }

  /** Normalising twice is normalising once. */
  lemma NormalizeSpacesIdempotent(s: string)
    ensures NormalizeSpaces(NormalizeSpaces(s)) == NormalizeSpaces(s)
  {
    NormalizeSpacesShape(s);
    NormalizeSpacesFixes(NormalizeSpaces(s));
  }

  // ---------------------------------------------------------------- numbers

  function DigitChar(d: nat): (c: char)
    requires d < 10
    ensures IsDigit(c)
  {
    ('0' as int + d) as char
  }

  function DigitValue(c: char): nat
    requires IsDigit(c)
  {
    c as int - '0' as int
  }

  predicate AllDigits(s: string) {
    forall i :: 0 <= i < |s| ==> IsDigit(s[i])
  }

  /** `str(n)` for a non-negative integer. */
  function NatToString(n: nat): (r: string)
    ensures r != [] && AllDigits(r)
  {
    if n < 10 then [DigitChar(n)] else NatToString(n / 10) + [DigitChar(n % 10)]
  }

  /** `str(i)` for any integer. */
  function IntToString(i: int): string {
    if i < 0 then "-" + NatToString(-i) else NatToString(i)
  }

  function DigitsValue(ds: string): nat
    requires AllDigits(ds)
  {
    if ds == [] then 0 else DigitsValue(ds[..|ds| - 1]) * 10 + DigitValue(ds[|ds| - 1])
  }

  lemma {:induction false} NatToStringValue(n: nat)
    ensures DigitsValue(NatToString(n)) == n
  {
    if n >= 10 {
      NatToStringValue(n / 10);
      var r := NatToString(n);
      assert r[..|r| - 1] == NatToString(n / 10);
    }
  }

  function RemoveUnderscores(s: string): (r: string)
    ensures |r| <= |s|
  {
    if s == [] then [] else (if s[0] == '_' then [] else [s[0]]) + RemoveUnderscores(s[1..])
  }

  lemma {:induction false} RemoveUnderscoresOfDigits(s: string)
    requires AllDigits(s)
    ensures RemoveUnderscores(s) == s
  {
    if s != [] {
      RemoveUnderscoresOfDigits(s[1..]);
    }
  }

  /** Python's integer literal body: digits, single underscores only between digits. */
  predicate IsDigitGroups(s: string) {
    && s != []
    && IsDigit(s[0]) && IsDigit(s[|s| - 1])
    && (forall i :: 0 <= i < |s| ==> IsDigit(s[i]) || s[i] == '_')
    && NoDoubleUnderscore(s)
  }

  predicate NoDoubleUnderscore(s: string) {
    |s| < 2 || (!(s[0] == '_' && s[1] == '_') && NoDoubleUnderscore(s[1..]))
  }

  lemma {:induction false} DigitsHaveNoDoubleUnderscore(s: string)
    requires AllDigits(s)
    ensures NoDoubleUnderscore(s)
  {
    if |s| >= 2 {
      DigitsHaveNoDoubleUnderscore(s[1..]);
    }
  }

  lemma {:induction false} RemoveUnderscoresDigits(s: string)
    requires forall i :: 0 <= i < |s| ==> IsDigit(s[i]) || s[i] == '_'
    ensures AllDigits(RemoveUnderscores(s))
  {
    if s != [] {
      RemoveUnderscoresDigits(s[1..]);
    }
  }

  /**
   * `int(text)` on a string, with the exception turned into `None`: surrounding
   * whitespace is ignored, one optional sign, then base-10 digit groups.
   */
  function ParseInt(text: string): (r: Option<int>)
    ensures r.Some? ==> Strip(text) != []
  {
    var t := Strip(text);
    if t == [] then None
    else
      var negative := t[0] == '-';
      var body := if t[0] == '-' || t[0] == '+' then t[1..] else t;
      if !IsDigitGroups(body) then None
      else
        RemoveUnderscoresDigits(body);
        var magnitude: int := DigitsValue(RemoveUnderscores(body));
        Some(if negative then -magnitude else magnitude)
  }

  /** A run of plain digits is a valid literal body whose value is its digits' value. */
  lemma DigitsAreGroups(digits: string)
    requires digits != [] && AllDigits(digits)
    ensures IsDigitGroups(digits)
    ensures RemoveUnderscores(digits) == digits
  {
    DigitsHaveNoDoubleUnderscore(digits);
    RemoveUnderscoresOfDigits(digits);
  }

  /** `int(str(i)) == i`. */
  lemma ParseIntOfIntToString(i: int)
    ensures ParseInt(IntToString(i)) == Some(i)
  {
    var s := IntToString(i);
    var n: nat := if i < 0 then -i else i;
    var digits := NatToString(n);
    assert s[|s| - 1] == digits[|digits| - 1];
    StripOfTrimmed(s);
    assert Strip(s) == s;
    DigitsAreGroups(digits);
    NatToStringValue(n);
    if i < 0 {
      assert s[0] == '-' && s[1..] == digits;
    } else {
      assert s == digits && s[0] != '-' && s[0] != '+';
    }
  }

  // ---------------------------------------------------------------- lines

  /** The characters at which Python's `str.splitlines()` breaks. */
  predicate IsLineBreak(c: char) {
    c == '\n' || c == '\r' || c == '\U{b}' || c == '\U{c}' || ('\U{1c}' <= c <= '\U{1e}')
    || c == '\U{85}' || c == '\U{2028}' || c == '\U{2029}'
  }

  predicate HasNoLineBreak(s: string) {
    forall i :: 0 <= i < |s| ==> !IsLineBreak(s[i])
  }

  function BreakIndex(s: string): (i: nat)
    ensures i <= |s|
    ensures HasNoLineBreak(s[..i])
    ensures i < |s| ==> IsLineBreak(s[i])
  {
    if s == [] then 0
    else if IsLineBreak(s[0]) then 0
    else
      var k := BreakIndex(s[1..]);
      assert s[..k + 1] == [s[0]] + s[1..][..k];
      1 + k
  }

  /** `str.splitlines()`: "\r\n" is one break; a final break adds no empty line. */
  function SplitLines(s: string): (lines: seq<string>)
    ensures forall i :: 0 <= i < |lines| ==> HasNoLineBreak(lines[i])
    decreases |s|
  {
    if s == [] then []
    else
      var i := BreakIndex(s);
      if i == |s| then [s]
      else
        var skip := if s[i] == '\r' && i + 1 < |s| && s[i + 1] == '\n' then 2 else 1;
        [s[..i]] + SplitLines(s[i + skip..])
  }

  /** Text ending in a newline splits at that newline first. */
  lemma SplitLinesCons(line: string, rest: string)
    requires HasNoLineBreak(line)
    ensures SplitLines(line + "\n" + rest) == [line] + SplitLines(rest)
  {
    var s := line + "\n" + rest;
    BreakIndexOfLine(line, rest);
    assert s[..|line|] == line;
    assert s[|line| + 1..] == rest;
  }

  lemma {:induction false} BreakIndexOfLine(line: string, rest: string)
    requires HasNoLineBreak(line)
    ensures BreakIndex(line + "\n" + rest) == |line|
  {
    if line != [] {
      assert (line + "\n" + rest)[1..] == line[1..] + "\n" + rest;
      BreakIndexOfLine(line[1..], rest);
    }
  }

  function StartsWith(s: string, prefix: string): bool {
    |prefix| <= |s| && s[..|prefix|] == prefix
  }

  // ---------------------------------------------------------------- fields

  /** The index of the first `c` in `s`, or `|s|` when there is none. */
  function FindChar(s: string, c: char): (i: nat)
    ensures i <= |s|
    ensures forall k :: 0 <= k < i ==> s[k] != c
    ensures i < |s| ==> s[i] == c
  {
    if s == [] then 0 else if s[0] == c then 0 else 1 + FindChar(s[1..], c)
  }

  /** `s.split(sep)` for a one-character separator: one more field than separators. */
  function SplitOn(s: string, sep: char): (parts: seq<string>)
    ensures |parts| >= 1
    ensures forall p :: p in parts ==> sep !in p
    decreases |s|
  {
    var i := FindChar(s, sep);
    if i == |s| then [s] else [s[..i]] + SplitOn(s[i + 1..], sep)
  }

  /** `sep.join(parts)`. */
  function JoinOn(parts: seq<string>, sep: char): string {
    if parts == [] then "" else if |parts| == 1 then parts[0] else parts[0] + [sep] + JoinOn(parts[1..], sep)
  }

  /** Joining the fields back gives the original text. */
  lemma {:induction false} JoinOnSplitOn(s: string, sep: char)
    ensures JoinOn(SplitOn(s, sep), sep) == s
    decreases |s|
  {
    var i := FindChar(s, sep);
    if i < |s| {
      JoinOnSplitOn(s[i + 1..], sep);
      var parts := SplitOn(s, sep);
      assert parts[1..] == SplitOn(s[i + 1..], sep);
      assert s == s[..i] + [sep] + s[i + 1..];
    }
  }

  lemma {:induction false} FindCharAfter(p: string, sep: char, rest: string)
    requires sep !in p
    ensures FindChar(p + [sep] + rest, sep) == |p|
    ensures FindChar(p, sep) == |p|
  {
    if p != [] {
      assert (p + [sep] + rest)[1..] == p[1..] + [sep] + rest;
      FindCharAfter(p[1..], sep, rest);
    }
  }

  /** Splitting joined fields that do not contain the separator gives the fields back. */
  lemma {:induction false} SplitOnJoinOn(parts: seq<string>, sep: char)
    requires |parts| >= 1
    requires forall p :: p in parts ==> sep !in p
    ensures SplitOn(JoinOn(parts, sep), sep) == parts
  {
    if |parts| == 1 {
      FindCharAfter(parts[0], sep, "");
    } else {
      var first, tail := parts[0], parts[1..];
      var rest := JoinOn(tail, sep);
      assert forall p :: p in tail ==> p in parts;
      SplitOnJoinOn(tail, sep);
      assert first in parts;
      FindCharAfter(first, sep, rest);
      var s := first + [sep] + rest;
      assert JoinOn(parts, sep) == s;
      assert s[..|first|] == first;
      assert s[|first| + 1..] == rest;
      assert SplitOn(s, sep) == [first] + SplitOn(rest, sep);
      assert parts == [first] + tail;
    }
  }

  /** Newline-joined lines with a final newline split back into those lines. */
  lemma {:induction false} SplitLinesOfJoined(lines: seq<string>)
    requires lines != []
    requires forall i :: 0 <= i < |lines| ==> HasNoLineBreak(lines[i])
    ensures SplitLines(JoinOn(lines, '\n') + "\n") == lines
  {
    if |lines| == 1 {
      SplitLinesCons(lines[0], "");
      assert lines[0] + "\n" + "" == lines[0] + "\n";
    } else {
      var rest := JoinOn(lines[1..], '\n');
      SplitLinesOfJoined(lines[1..]);
      SplitLinesCons(lines[0], rest + "\n");
      assert JoinOn(lines, '\n') + "\n" == lines[0] + "\n" + (rest + "\n");
      assert lines == [lines[0]] + lines[1..];
    }
  }

  // ---------------------------------------------------------------- order

  /** `a <= b` on Python strings: lexicographic by code point. */
  predicate StrLe(a: string, b: string) {
    a == [] || (b != [] && (a[0] < b[0] || (a[0] == b[0] && StrLe(a[1..], b[1..]))))
  }

  lemma {:induction false} StrLeTotal(a: string, b: string)
    ensures StrLe(a, b) || StrLe(b, a)
  {
    if a != [] && b != [] && a[0] == b[0] {
      StrLeTotal(a[1..], b[1..]);
    }
  }

  lemma {:induction false} StrLeTransitive(a: string, b: string, c: string)
    requires StrLe(a, b) && StrLe(b, c)
    ensures StrLe(a, c)
  {
    if a != [] && b != [] && c != [] && a[0] == b[0] && b[0] == c[0] {
      StrLeTransitive(a[1..], b[1..], c[1..]);
    }
  }

  lemma {:induction false} StrLeAntisymmetric(a: string, b: string)
    requires StrLe(a, b) && StrLe(b, a)
    ensures a == b
  {
    if a != [] && b != [] {
      StrLeAntisymmetric(a[1..], b[1..]);
      assert a == [a[0]] + a[1..];
      assert b == [b[0]] + b[1..];
    }
  }
}

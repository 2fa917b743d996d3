/** The JavaScript string operations the modelled code relies on: the `\s` character class
    (which is also the set `trim` removes), `trim`, `split(/\s+/)`, `startsWith`, the
    decimal text of a number, ASCII lower-casing, the UTF-16 `length` and the order in
    which `Array.prototype.sort` puts strings. */
module Text {

  /** The characters matched by `\s` in a JavaScript regular expression; `String.prototype.trim`
      removes exactly the same set (ECMAScript WhiteSpace and LineTerminator). */
  predicate IsSpace(c: char) {
    || c == '\t' || c == '\n' || c == '\U{000B}' || c == '\U{000C}' || c == '\r' || c == ' '
    || c == '\U{00A0}' || c == '\U{1680}' || ('\U{2000}' <= c <= '\U{200A}')
    || c == '\U{2028}' || c == '\U{2029}' || c == '\U{202F}' || c == '\U{205F}'
    || c == '\U{3000}' || c == '\U{FEFF}'
  }

  predicate NoSpace(s: string) {
    forall k :: 0 <= k < |s| ==> !IsSpace(s[k])
  }

  predicate AllSpace(s: string) {
    forall k :: 0 <= k < |s| ==> IsSpace(s[k])
  }

  predicate StartsWith(s: string, prefix: string) {
    |prefix| <= |s| && s[..|prefix|] == prefix
  }

  /** `s.trimStart()`: the suffix left after dropping leading white space. */
  function TrimStart(s: string): (r: string)
    ensures |r| <= |s| && r == s[|s| - |r|..]
    ensures AllSpace(s[..|s| - |r|])
    ensures r == [] || !IsSpace(r[0])
    ensures |s| > 0 && IsSpace(s[0]) ==> |r| < |s|
  {
    if s == [] || !IsSpace(s[0]) then s
    else
      var r := TrimStart(s[1..]);
      assert s[..|s| - |r|] == [s[0]] + s[1..][..|s| - 1 - |r|];
      r
  }

  /** `s.trimEnd()`: the prefix left after dropping trailing white space. */
  function TrimEnd(s: string): (r: string)
    ensures |r| <= |s| && r == s[..|r|]
    ensures AllSpace(s[|r|..])
    ensures r == [] || !IsSpace(r[|r| - 1])
  {
    if s == [] || !IsSpace(s[|s| - 1]) then s
    else
      var r := TrimEnd(s[..|s| - 1]);
      assert s[|r|..] == s[..|s| - 1][|r|..] + [s[|s| - 1]];
      r
  }

  /** `s.trim()`. */
  function Trim(s: string): string {
    TrimEnd(TrimStart(s))
  }

  /** `!s.trim()`: the string is empty or white space only. */
  predicate IsBlank(s: string) {
    Trim(s) == ""
  }

  lemma AllSpaceConcat(a: string, b: string)
    requires AllSpace(a) && AllSpace(b)
    ensures AllSpace(a + b)
  {
    forall k | 0 <= k < |a + b| ensures IsSpace((a + b)[k]) {
      if k < |a| {
        assert (a + b)[k] == a[k];
      } else {
        assert (a + b)[k] == b[k - |a|];
      }
    }
  }

  /** A string trims to nothing exactly when every character of it is white space. */
  lemma {:induction false} BlankIffAllSpace(s: string)
    ensures IsBlank(s) <==> AllSpace(s)
  {
    var t := TrimStart(s);
    var lead := s[..|s| - |t|];
    assert s == lead + t;
    var e := TrimEnd(t);
    if e == [] {
      assert t[|e|..] == t;
      AllSpaceConcat(lead, t);
    }
  }

  /** A string that is not blank trims to one that starts and ends with a non-space character. */
  lemma {:induction false} TrimmedEnds(s: string)
    requires !IsBlank(s)
    ensures !IsSpace(Trim(s)[0]) && !IsSpace(Trim(s)[|Trim(s)| - 1])
  {
    var t := TrimStart(s);
    var e := TrimEnd(t);
    assert e[0] == t[0];
  }

  /** Length of the longest prefix that holds no white space. */
  function WordPrefix(s: string): (n: nat)
    ensures n <= |s| && NoSpace(s[..n])
    ensures n < |s| ==> IsSpace(s[n])
  {
    if s == [] || IsSpace(s[0]) then 0
    else
      var n := 1 + WordPrefix(s[1..]);
      assert s[..n] == [s[0]] + s[1..][..n - 1];
      n
  }

  /** `s.split(/\s+/)`: the pieces between maximal runs of white space, including the empty
      pieces before a leading run and after a trailing one (`"".split(/\s+/)` is `[""]`). */
  function Split(s: string): seq<string>
    decreases |s|
  {
    var n := WordPrefix(s);
    if n == |s| then [s] else [s[..n]] + Split(TrimStart(s[n..]))
  }

  /** `.filter((word) => word.length > 0)`. */
  function NonEmpty(parts: seq<string>): (r: seq<string>)
    ensures |r| <= |parts|
    ensures forall w :: w in r ==> w in parts && w != []
  {
    if parts == [] then []
    else (if parts[0] == [] then [] else [parts[0]]) + NonEmpty(parts[1..])
  }

  /** The words of a text: the non-empty pieces of `split(/\s+/)`. */
  function Words(s: string): seq<string> {
    NonEmpty(Split(s))
  }

  /** `text.split(/\s+/).filter((word) => word.length > 0).length`. */
  function WordCount(s: string): nat {
    |Words(s)|
  }

  /** Reference count of words: the positions holding a non-space character that is first in
      the string or follows a space. `afterSpace` says whether the previous character was one. */
  function CountStarts(s: string, afterSpace: bool): nat {
    if s == [] then 0
    else (if afterSpace && !IsSpace(s[0]) then 1 else 0) + CountStarts(s[1..], IsSpace(s[0]))
  }

  function WordStarts(s: string): nat {
    CountStarts(s, true)
  }

  lemma NonEmptyAppend(a: seq<string>, b: seq<string>)
    ensures NonEmpty(a + b) == NonEmpty(a) + NonEmpty(b)
  {
    if a != [] {
      assert (a + b)[0] == a[0];
      assert (a + b)[1..] == a[1..] + b;
      NonEmptyAppend(a[1..], b);
    } else {
      assert a + b == b;
    }
  }

  lemma NonEmptyUnchanged(parts: seq<string>)
    requires forall i :: 0 <= i < |parts| ==> parts[i] != []
    ensures NonEmpty(parts) == parts
  {
    if parts != [] {
      NonEmptyUnchanged(parts[1..]);
    }
  }

  lemma StartsConcat(u: string, v: string, p: bool)
    ensures CountStarts(u + v, p)
         == CountStarts(u, p) + CountStarts(v, if u == [] then p else IsSpace(u[|u| - 1]))
  {
    if u != [] {
      assert (u + v)[0] == u[0];
      assert (u + v)[1..] == u[1..] + v;
      StartsConcat(u[1..], v, IsSpace(u[0]));
      if u[1..] != [] {
        assert u[1..][|u[1..]| - 1] == u[|u| - 1];
      }
    } else {
      assert u + v == v;
    }
  }

  lemma StartsOfSpaces(s: string, p: bool)
    requires AllSpace(s)
    ensures CountStarts(s, p) == 0
  {
    if s != [] {
      StartsOfSpaces(s[1..], IsSpace(s[0]));
    }
  }

  lemma StartsOfWord(s: string, p: bool)
    requires s != [] && NoSpace(s)
    ensures CountStarts(s, p) == if p then 1 else 0
  {
    if |s| > 1 {
      StartsOfWord(s[1..], false);
    }
  }

  /** Every piece of `split(/\s+/)`, hence every word, is free of white space. */
  lemma {:induction false} SplitPiecesHaveNoSpace(s: string)
    ensures forall i :: 0 <= i < |Split(s)| ==> NoSpace(Split(s)[i])
    decreases |s|
  {
    var n := WordPrefix(s);
    if n < |s| {
      SplitPiecesHaveNoSpace(TrimStart(s[n..]));
    }
  }

  /** The word count of `generateSummary` agrees with the reference count of word starts. */
  lemma {:induction false} WordCountIsWordStarts(s: string)
    ensures WordCount(s) == WordStarts(s)
    decreases |s|
  {
    var n := WordPrefix(s);
    var w := s[..n];
    if n == |s| {
      assert w == s;
      if s != [] {
        StartsOfWord(s, true);
      }
    } else {
      var rest := s[n..];
      var t := TrimStart(rest);
      var sp := rest[..|rest| - |t|];
      var own := if w == [] then 0 else 1;
      assert rest == sp + t;
      assert sp != [] && IsSpace(sp[|sp| - 1]);
      assert WordCount(s) == own + WordCount(t) by {
        NonEmptyAppend([w], Split(t));
      }
      assert WordStarts(s) == own + WordStarts(t) by {
        assert s == w + (sp + t);
        StartsConcat(w, sp + t, true);
        StartsConcat(sp, t, if w == [] then true else IsSpace(w[|w| - 1]));
        StartsOfSpaces(sp, if w == [] then true else IsSpace(w[|w| - 1]));
        if w != [] {
          StartsOfWord(w, true);
        }
      }
      WordCountIsWordStarts(t);
    }
  }

  /** Surrounding white space does not change the number of words. */
  lemma {:induction false} TrimKeepsWordStarts(s: string)
    ensures WordStarts(Trim(s)) == WordStarts(s)
  {
    var m := TrimStart(s);
    assert CountStarts(s, true) == CountStarts(m, true) by {
      var lead := s[..|s| - |m|];
      assert s == lead + m;
      StartsConcat(lead, m, true);
      StartsOfSpaces(lead, true);
      assert (if lead == [] then true else IsSpace(lead[|lead| - 1]));
    }
    var e := TrimEnd(m);
    assert CountStarts(m, true) == CountStarts(e, true) by {
      var tail := m[|e|..];
      assert m == e + tail;
      StartsConcat(e, tail, true);
      StartsOfSpaces(tail, if e == [] then true else IsSpace(e[|e| - 1]));
    }
  }

  /** A string that starts and ends with a non-space character splits into non-empty pieces. */
  lemma {:induction false} SplitTrimmedHasNoEmptyPiece(t: string)
    requires t != [] && !IsSpace(t[0]) && !IsSpace(t[|t| - 1])
    ensures forall i :: 0 <= i < |Split(t)| ==> Split(t)[i] != []
    decreases |t|
  {
    var n := WordPrefix(t);
    if n < |t| {
      var rest := t[n..];
      var r := TrimStart(rest);
      assert rest[|rest| - 1] == t[|t| - 1];
      assert r[|r| - 1] == rest[|rest| - 1];
      SplitTrimmedHasNoEmptyPiece(r);
      assert t[..n] != [];
    }
  }

  /** `content.trim().split(/\s+/).length`, the count `saveSummary` stores: the number of words,
      except that a white-space-only text counts as one (the single empty piece of `""`). */
  lemma {:induction false} TrimmedSplitLength(s: string)
    ensures |Split(Trim(s))| == if AllSpace(s) then 1 else WordCount(s)
  {
    BlankIffAllSpace(s);
    if AllSpace(s) {
      assert Trim(s) == [];
    } else {
      var t := Trim(s);
      TrimmedEnds(s);
      SplitTrimmedHasNoEmptyPiece(t);
      NonEmptyUnchanged(Split(t));
      WordCountIsWordStarts(t);
      WordCountIsWordStarts(s);
      TrimKeepsWordStarts(s);
    }
  }

  lemma AllSpaceHasNoWords(s: string)
    requires AllSpace(s)
    ensures WordCount(s) == 0
  {
    WordCountIsWordStarts(s);
    StartsOfSpaces(s, true);
  }

  // ----- decimal text of a number -----

  function Digit(d: nat): char
    requires d < 10
  {
    "0123456789"[d]
  }

  predicate IsDigit(c: char) {
    '0' <= c <= '9'
  }

  /** The value of a string of decimal digits. */
  function DigitsValue(s: string): nat
    requires forall k :: 0 <= k < |s| ==> IsDigit(s[k])
  {
    if s == [] then 0
    else 10 * DigitsValue(s[..|s| - 1]) + DigitValue(s[|s| - 1])
  }

  function DigitValue(c: char): nat
    requires IsDigit(c)
  {
    (c as int) - ('0' as int)
  }

  /** `${n}` for a non-negative integer: shortest decimal text, which reads back as `n`. */
  function NatToString(n: nat): (r: string)
    ensures r != [] && (forall k :: 0 <= k < |r| ==> IsDigit(r[k]))
    ensures DigitsValue(r) == n
    ensures r[0] == '0' ==> r == "0"
  {
    if n < 10 then [Digit(n)]
    else
      var r := NatToString(n / 10) + [Digit(n % 10)];
      assert r[..|r| - 1] == NatToString(n / 10);
      r
  }

  // ----- other character-level operations -----

  /** `toLowerCase` restricted to ASCII letters. */
  function ToLowerAscii(s: string): (r: string)
    ensures |r| == |s|
    ensures forall k :: 0 <= k < |s| ==>
      r[k] == if 'A' <= s[k] <= 'Z' then (s[k] as int + 32) as char else s[k]
  {
    if s == [] then []
    else
      [if 'A' <= s[0] <= 'Z' then (s[0] as int + 32) as char else s[0]] + ToLowerAscii(s[1..])
  }

  /** JavaScript's `s.length`: the number of UTF-16 code units, two for a character
      outside the Basic Multilingual Plane. */
  function Utf16Length(s: string): (n: nat)
    ensures |s| <= n <= 2 * |s|
  {
    if s == [] then 0 else (if s[0] as int > 0xFFFF then 2 else 1) + Utf16Length(s[1..])
  }

  // ----- string order -----

  /** Lexicographic order on strings, the order `Array.prototype.sort` uses by default.
      Characters are compared as code points, where JavaScript compares UTF-16 code units;
      the two orders agree unless a string holds a character above U+FFFF. */
  predicate LessOrEqual(a: string, b: string) {
    if a == [] then true
    else if b == [] then false
    else if a[0] != b[0] then a[0] < b[0]
    else LessOrEqual(a[1..], b[1..])
  }

  lemma LessOrEqualTotal(a: string, b: string)
    ensures LessOrEqual(a, b) || LessOrEqual(b, a)
  {
    if a != [] && b != [] && a[0] == b[0] {
      LessOrEqualTotal(a[1..], b[1..]);
    }
  }

  lemma LessOrEqualAntisymmetric(a: string, b: string)
    requires LessOrEqual(a, b) && LessOrEqual(b, a)
    ensures a == b
  {
    if a != [] && b != [] {
      LessOrEqualAntisymmetric(a[1..], b[1..]);
      assert a == [a[0]] + a[1..] && b == [b[0]] + b[1..];
    }
  }

  lemma LessOrEqualTransitive(a: string, b: string, c: string)
    requires LessOrEqual(a, b) && LessOrEqual(b, c)
    ensures LessOrEqual(a, c)
  {
    if a != [] && b != [] && c != [] && a[0] == b[0] && b[0] == c[0] {
      LessOrEqualTransitive(a[1..], b[1..], c[1..]);
    }
  }
}

/** String operations the dashboard applies with JavaScript string methods and
    regular expressions. `\w` is the ASCII class [A-Za-z0-9_]. */
module Text {

  predicate StartsWith(s: string, prefix: string) {
    |prefix| <= |s| && s[..|prefix|] == prefix
  }

  predicate EndsWith(s: string, suffix: string) {
    |suffix| <= |s| && s[|s| - |suffix|..] == suffix
  }

  /** Membership in the regular-expression class `\w`. */
  predicate IsWordChar(c: char) {
    ('A' <= c <= 'Z') || ('a' <= c <= 'z') || ('0' <= c <= '9') || c == '_'
  }

  /** `toUpperCase` on a `\w` character: only ASCII letters change. */
  function UpperAscii(c: char): (u: char)
    ensures IsWordChar(u) == IsWordChar(c)
    ensures !('a' <= u <= 'z')
    ensures 'a' <= c <= 'z' ==> u != c && LowerAscii(u) == c
    ensures !('a' <= c <= 'z') ==> u == c
  {
    if 'a' <= c <= 'z' then (c as int - 32) as char else c
  }

  /** `toLowerCase` restricted to ASCII letters. */
  function LowerAscii(c: char): (l: char)
    ensures !('A' <= l <= 'Z')
    ensures !('A' <= c <= 'Z') ==> l == c
    ensures 'A' <= c <= 'Z' ==> 'a' <= l <= 'z' && l as int - c as int == 'a' as int - 'A' as int
  {
    if 'A' <= c <= 'Z' then (c as int + 32) as char else c
  }

  /** Lower- and upper-casing pair up the ASCII letters: each undoes the other. */
  lemma CaseRoundTrip(c: char)
    ensures 'A' <= c <= 'Z' ==> UpperAscii(LowerAscii(c)) == c
    ensures 'a' <= c <= 'z' ==> LowerAscii(UpperAscii(c)) == c
  {
  }

  /** `s.toLowerCase()` on ASCII letters, position by position. */
  function Lower(s: string): (r: string)
    ensures |r| == |s|
    ensures forall i :: 0 <= i < |s| ==> r[i] == LowerAscii(s[i])
  {
    seq(|s|, i requires 0 <= i < |s| => LowerAscii(s[i]))
  }

  lemma {:induction false} LowerAppend(a: string, b: string)
    ensures Lower(a + b) == Lower(a) + Lower(b)
  {
    var l, m := Lower(a + b), Lower(a) + Lower(b);
    assert |l| == |m|;
    forall i | 0 <= i < |l| ensures l[i] == m[i] {
      if i < |a| { assert (a + b)[i] == a[i]; } else { assert (a + b)[i] == b[i - |a|]; }
    }
  }

  lemma {:induction false} LowerIdempotent(s: string)
    ensures Lower(Lower(s)) == Lower(s)
  {
    var l := Lower(s);
    var ll := Lower(l);
    assert |ll| == |l|;
    forall i | 0 <= i < |l| ensures ll[i] == l[i] {
      assert l[i] == LowerAscii(s[i]);
    }
  }

  /** A string without ASCII capitals is its own lower case. */
  lemma {:induction false} LowerOfLowerCase(s: string)
    requires forall i :: 0 <= i < |s| ==> !('A' <= s[i] <= 'Z')
    ensures Lower(s) == s
  {
    var l := Lower(s);
    assert forall i :: 0 <= i < |s| ==> l[i] == s[i];
  }

  /** `s.replace(/\.json$/, '')`: one trailing ".json" is removed; ".json"
      anywhere else, or a second one before it, stays. */
  function StripJsonSuffix(s: string): (r: string)
    ensures EndsWith(s, ".json") ==> r + ".json" == s
    ensures !EndsWith(s, ".json") ==> r == s
    ensures StartsWith(s, r)
  {
    if EndsWith(s, ".json") then s[..|s| - 5] else s
  }

  /** The character `replace(/[-_]/g, ' ')` puts at one position. */
  function DashToSpace(c: char): (d: char)
    ensures d != '-' && d != '_'
    ensures c == '-' || c == '_' ==> d == ' '
    ensures c != '-' && c != '_' ==> d == c
  {
    if c == '-' || c == '_' then ' ' else c
  }

  /** `s.replace(/[-_]/g, ' ')`. */
  function DashesToSpaces(s: string): (r: string)
    ensures |r| == |s|
    ensures forall i :: 0 <= i < |s| ==> r[i] == DashToSpace(s[i])
  {
    if s == [] then [] else [DashToSpace(s[0])] + DashesToSpaces(s[1..])
  }

  lemma {:induction false} DashesToSpacesIdentity(s: string)
    requires forall i :: 0 <= i < |s| ==> s[i] != '-' && s[i] != '_'
    ensures DashesToSpaces(s) == s
  {
    var r := DashesToSpaces(s);
    forall i | 0 <= i < |s| ensures r[i] == s[i] { }
  }

  /** A `\b\w` match: a word character at the start or after a non-word character. */
  predicate StartsWord(s: string, i: int)
    requires 0 <= i < |s|
  {
    IsWordChar(s[i]) && (i == 0 || !IsWordChar(s[i - 1]))
  }

  /** The scan `replace(/\b\w/g, ...)` performs over `s`, where `afterWord` tells
      whether the character before `s` was a word character. */
  function CapitalizeFrom(s: string, afterWord: bool): (r: string)
    ensures |r| == |s|
    ensures |s| > 0 ==> r[0] == if IsWordChar(s[0]) && !afterWord then UpperAscii(s[0]) else s[0]
    ensures forall i :: 0 < i < |s| ==> r[i] == if StartsWord(s, i) then UpperAscii(s[i]) else s[i]
  {
    if s == [] then []
    else
      [if IsWordChar(s[0]) && !afterWord then UpperAscii(s[0]) else s[0]]
      + CapitalizeFrom(s[1..], IsWordChar(s[0]))
  }

  /** `s.replace(/\b\w/g, l => l.toUpperCase())`: the first character of every
      word is upper-cased, every other character is left as it was. */
  function CapitalizeWords(s: string): (r: string)
    ensures |r| == |s|
    ensures forall i :: 0 <= i < |s| ==> r[i] == if StartsWord(s, i) then UpperAscii(s[i]) else s[i]
  {
    CapitalizeFrom(s, false)
  }

  lemma {:induction false} CapitalizeWordsIdempotent(s: string)
    ensures CapitalizeWords(CapitalizeWords(s)) == CapitalizeWords(s)
  {
    var c := CapitalizeWords(s);
    var cc := CapitalizeWords(c);
    forall i | 0 <= i < |s| ensures cc[i] == c[i] {
      assert IsWordChar(c[i]) == IsWordChar(s[i]);
      if i > 0 { assert IsWordChar(c[i - 1]) == IsWordChar(s[i - 1]); }
    }
  }

  /** The characters JavaScript's `trim` removes: the ECMAScript WhiteSpace and
      LineTerminator code points. */
  const Whitespace: set<char> := {
    '\U{0009}', '\U{000A}', '\U{000B}', '\U{000C}', '\U{000D}', '\U{0020}', '\U{00A0}', '\U{1680}',
    '\U{2000}', '\U{2001}', '\U{2002}', '\U{2003}', '\U{2004}', '\U{2005}', '\U{2006}', '\U{2007}',
    '\U{2008}', '\U{2009}', '\U{200A}', '\U{2028}', '\U{2029}', '\U{202F}', '\U{205F}', '\U{3000}',
    '\U{FEFF}'}

  predicate IsWhitespace(c: char) {
    c in Whitespace
  }

  /** The first index at or after `i` that does not hold white space, or `|s|`. */
  function SkipWhitespace(s: string, i: nat): (n: nat)
    requires i <= |s|
    ensures i <= n <= |s|
    ensures forall k :: i <= k < n ==> IsWhitespace(s[k])
    ensures n < |s| ==> !IsWhitespace(s[n])
    decreases |s| - i
  {
    if i < |s| && IsWhitespace(s[i]) then SkipWhitespace(s, i + 1) else i
  }

  /** Going back from `j` but not below `lo`: the first index from which on
      everything up to `j` is white space. */
  function SkipWhitespaceBack(s: string, lo: nat, j: nat): (n: nat)
    requires lo <= j <= |s|
    ensures lo <= n <= j
    ensures forall k :: n <= k < j ==> IsWhitespace(s[k])
    ensures n > lo ==> !IsWhitespace(s[n - 1])
    decreases j
  {
    if j > lo && IsWhitespace(s[j - 1]) then SkipWhitespaceBack(s, lo, j - 1) else j
  }

  /** Where `s.trim()` starts in `s`. */
  function TrimStart(s: string): (a: nat)
    ensures a <= |s|
  {
    SkipWhitespace(s, 0)
  }

  /** `s.trim()`: the slice of `s` between its leading and its trailing white
      space, so it neither starts nor ends with white space and is empty exactly
      when `s` is all white space. */
  function Trim(s: string): (r: string)
    ensures TrimStart(s) + |r| <= |s| && r == s[TrimStart(s)..TrimStart(s) + |r|]
    ensures forall k :: 0 <= k < TrimStart(s) ==> IsWhitespace(s[k])
    ensures forall k :: TrimStart(s) + |r| <= k < |s| ==> IsWhitespace(s[k])
    ensures r != [] ==> !IsWhitespace(r[0]) && !IsWhitespace(r[|r| - 1])
    ensures r == [] <==> forall k :: 0 <= k < |s| ==> IsWhitespace(s[k])
  {
    var a := SkipWhitespace(s, 0);
    var b := SkipWhitespaceBack(s, a, |s|);
    var r := s[a..b];
    assert r != [] ==> r[0] == s[a] && r[|r| - 1] == s[b - 1];
    assert r == [] ==> a == |s|;
    r
  }

  lemma TrimIdempotent(s: string)
    ensures Trim(Trim(s)) == Trim(s)
  {
    var r := Trim(s);
    if r != [] {
      assert SkipWhitespace(r, 0) == 0;
      assert SkipWhitespaceBack(r, 0, |r|) == |r|;
    }
  }

  /** `s.replace(/\/$/, '')`: at most one trailing '/' is removed. */
  function StripTrailingSlash(s: string): (r: string)
    ensures EndsWith(s, "/") ==> r + "/" == s
    ensures !EndsWith(s, "/") ==> r == s
  {
    if EndsWith(s, "/") then s[..|s| - 1] else s
  }

  /** The decimal notation of a natural number, as template literals print it. */
  function Decimal(n: nat): (r: string)
    ensures r != []
    ensures forall i :: 0 <= i < |r| ==> '0' <= r[i] <= '9'
    ensures n > 0 ==> r[0] != '0'
  {
    if n < 10 then [Digit(n)] else Decimal(n / 10) + [Digit(n % 10)]
  }

  function Digit(d: nat): (c: char)
    requires d < 10
    ensures '0' <= c <= '9' && DigitValue(c) == d
  {
    ('0' as int + d) as char
  }

  function DigitValue(c: char): nat
    requires '0' <= c <= '9'
  {
    c as int - '0' as int
  }

  /** The number a string of decimal digits denotes. */
  function DecimalValue(s: string): nat
    requires forall i :: 0 <= i < |s| ==> '0' <= s[i] <= '9'
  {
    if s == [] then 0 else 10 * DecimalValue(s[..|s| - 1]) + DigitValue(s[|s| - 1])
  }

  /** Reading back a printed number gives the number. */
  lemma {:induction false} DecimalRoundTrip(n: nat)
    ensures DecimalValue(Decimal(n)) == n
  {
    var r := Decimal(n);
    if n >= 10 {
      DecimalRoundTrip(n / 10);
      assert r[..|r| - 1] == Decimal(n / 10);
    }
  }
}

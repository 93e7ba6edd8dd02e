/**
 * The string primitives the validators rely on, with JavaScript's meaning:
 * `\s` and `trim`, `.length` in UTF-16 code units, and the two regular
 * expressions the forms test (`\S+@\S+\.\S+` and the lookahead classes).
 * A JavaScript string is modelled as a `string` of Unicode scalar values.
 */
module Text {

  /** JavaScript WhiteSpace and LineTerminator: what `\s` matches and `trim` strips. */
  predicate IsWhitespace(c: char) {
    var n := c as int;
    n == 0x09 || n == 0x0A || n == 0x0B || n == 0x0C || n == 0x0D || n == 0x20
    || n == 0xA0 || n == 0x1680 || (0x2000 <= n <= 0x200A) || n == 0x2028
    || n == 0x2029 || n == 0x202F || n == 0x205F || n == 0x3000 || n == 0xFEFF
  }

  /** The line terminators, the characters `.` in a pattern does not match. */
  predicate IsLineTerminator(c: char) {
    var n := c as int;
    n == 0x0A || n == 0x0D || n == 0x2028 || n == 0x2029
  }

  predicate IsBlank(s: string) {
    forall k | 0 <= k < |s| :: IsWhitespace(s[k])
  }

  /** `s.length`: characters outside the Basic Multilingual Plane take two UTF-16 code units. */
  function Utf16Length(s: string): nat {
    if s == [] then 0
    else (if s[0] as int >= 0x10000 then 2 else 1) + Utf16Length(s[1..])
  }

  /** Between one and two code units per character, and exactly one on BMP-only text. */
  lemma {:induction false} Utf16LengthBounds(s: string)
    ensures |s| <= Utf16Length(s) <= 2 * |s|
    ensures (forall k | 0 <= k < |s| :: s[k] as int < 0x10000) ==> Utf16Length(s) == |s|
  {
    if s != [] {
      Utf16LengthBounds(s[1..]);
      if forall k | 0 <= k < |s| :: s[k] as int < 0x10000 {
        assert forall k | 0 <= k < |s[1..]| :: s[1..][k] == s[k + 1];
      }
    }
  }

  /** `s.trimStart()`. */
  function TrimStart(s: string): string {
    if s != [] && IsWhitespace(s[0]) then TrimStart(s[1..]) else s
  }

  /** `s.trimEnd()`. */
  function TrimEnd(s: string): string {
    if s != [] && IsWhitespace(s[|s| - 1]) then TrimEnd(s[..|s| - 1]) else s
  }

  /** What `trimStart` removes is a blank prefix, and what it keeps starts with a non-space. */
  lemma {:induction false} TrimStartSpec(s: string)
    ensures |TrimStart(s)| <= |s| && TrimStart(s) == s[|s| - |TrimStart(s)|..]
    ensures IsBlank(s[..|s| - |TrimStart(s)|])
    ensures TrimStart(s) == [] || !IsWhitespace(TrimStart(s)[0])
  {
    if s != [] && IsWhitespace(s[0]) {
      TrimStartSpec(s[1..]);
      var r := TrimStart(s[1..]);
      assert s[1..][|s| - 1 - |r|..] == s[|s| - |r|..];
      assert s[..|s| - |r|] == [s[0]] + s[1..][..|s| - 1 - |r|];
    }
  }

  /** What `trimEnd` removes is a blank suffix, and what it keeps ends with a non-space. */
  lemma {:induction false} TrimEndSpec(s: string)
    ensures |TrimEnd(s)| <= |s| && TrimEnd(s) == s[..|TrimEnd(s)|]
    ensures IsBlank(s[|TrimEnd(s)|..])
    ensures TrimEnd(s) == [] || !IsWhitespace(TrimEnd(s)[|TrimEnd(s)| - 1])
  {
    if s != [] && IsWhitespace(s[|s| - 1]) {
      var t := s[..|s| - 1];
      TrimEndSpec(t);
      var r := TrimEnd(t);
      assert t[..|r|] == s[..|r|];
      assert s[|r|..] == t[|r|..] + [s[|s| - 1]];
    }
  }

  /** `s.trim()`: leading and trailing whitespace removed. */
  function Trim(s: string): string {
    TrimEnd(TrimStart(s))
  }

  /**
   * `trim` keeps a slice of `s` between a blank prefix and a blank suffix,
   * beginning and ending with a non-space; it is empty exactly on blank input.
   */
  lemma TrimSpec(s: string)
    ensures Trim(s) == "" <==> IsBlank(s)
    ensures Trim(s) == [] || (!IsWhitespace(Trim(s)[0]) && !IsWhitespace(Trim(s)[|Trim(s)| - 1]))
    ensures exists i, j | 0 <= i <= j <= |s| ::
              Trim(s) == s[i..j] && IsBlank(s[..i]) && IsBlank(s[j..])
  {
    var t := TrimStart(s);
    TrimStartSpec(s);
    TrimEndSpec(t);
    var r := TrimEnd(t);
    var i := |s| - |t|;
    assert s[i..][..|r|] == s[i..i + |r|];
    assert t[|r|..] == s[i + |r|..];
    assert Trim(s) == s[i..i + |r|];
    if r == "" {
      assert s == s[..i] + t;
    }
  }

  // ---------------------------------------------------------------------
  // `/\S+@\S+\.\S+/.test(s)`
  // ---------------------------------------------------------------------

  /** `s[i..j]` is a match of `\S+`: non-empty, with no whitespace. */
  predicate NonSpaceRun(s: string, i: int, j: int)
    requires 0 <= i <= j <= |s|
  {
    i < j && forall k | i <= k < j :: !IsWhitespace(s[k])
  }

  /** The pattern matches exactly `s[a..b]`, with the "@" at `x` and the "." at `y`. */
  predicate EmailMatchAt(s: string, a: int, x: int, y: int, b: int)
    requires 0 <= a < x < y < b <= |s|
  {
    NonSpaceRun(s, a, x) && s[x] == '@' && NonSpaceRun(s, x + 1, y)
    && s[y] == '.' && NonSpaceRun(s, y + 1, b)
  }

  /** The unanchored test: some substring of `s` matches the pattern. */
  predicate EmailPatternTest(s: string) {
    exists a, x, y, b | 0 <= a < |s| && a < x < |s| && x < y < |s| && y < b <= |s| ::
      EmailMatchAt(s, a, x, y, b)
  }

  /**
   * The same condition read off the characters: an "@" preceded by a
   * non-space, a "." at least two characters later with no whitespace in
   * between, and a non-space right after that ".".
   */
  predicate EmailShapeAt(s: string, x: int, y: int)
    requires 1 <= x && x + 2 <= y && y + 2 <= |s|
  {
    !IsWhitespace(s[x - 1]) && s[x] == '@' && NonSpaceRun(s, x + 1, y)
    && s[y] == '.' && !IsWhitespace(s[y + 1])
  }

  predicate EmailShape(s: string) {
    exists x, y | 1 <= x < |s| && x + 2 <= y && y + 2 <= |s| :: EmailShapeAt(s, x, y)
  }

  /** A match pins an "@" and a "." that have the shape around them. */
  lemma MatchHasShape(s: string, a: int, x: int, y: int, b: int)
    requires 0 <= a < x < y < b <= |s| && EmailMatchAt(s, a, x, y, b)
    ensures 1 <= x && x + 2 <= y && y + 2 <= |s| && EmailShapeAt(s, x, y)
  {
    assert !IsWhitespace(s[x - 1]);
    assert !IsWhitespace(s[y + 1]);
  }

  /** The shape yields the shortest match: one character on each outer side. */
  lemma ShapeHasMatch(s: string, x: int, y: int)
    requires 1 <= x && x + 2 <= y && y + 2 <= |s| && EmailShapeAt(s, x, y)
    ensures EmailMatchAt(s, x - 1, x, y, y + 2)
  {
    assert NonSpaceRun(s, x - 1, x);
    assert NonSpaceRun(s, y + 1, y + 2);
  }

  lemma EmailPatternIsShape(s: string)
    ensures EmailPatternTest(s) <==> EmailShape(s)
  {
    if EmailPatternTest(s) {
      var a, x, y, b :| 0 <= a < |s| && a < x < |s| && x < y < |s| && y < b <= |s|
                      && EmailMatchAt(s, a, x, y, b);
      MatchHasShape(s, a, x, y, b);
    } else if EmailShape(s) {
      var x, y :| 1 <= x < |s| && x + 2 <= y && y + 2 <= |s| && EmailShapeAt(s, x, y);
      ShapeHasMatch(s, x, y);
    }
  }

  lemma EmailPatternExamples()
    ensures EmailPatternTest("a@b.c")
    ensures !EmailPatternTest("a@b")
    ensures !EmailPatternTest("a @b.c")
  {
    EmailPatternIsShape("a@b.c");
    assert EmailShapeAt("a@b.c", 1, 3);
    EmailPatternIsShape("a@b");
    EmailPatternIsShape("a @b.c");
    var s := "a @b.c";
    forall x, y | 1 <= x < |s| && x + 2 <= y && y + 2 <= |s|
      ensures !EmailShapeAt(s, x, y)
    {
      if s[x] == '@' { assert x == 2 && IsWhitespace(s[1]); }
    }
  }

  // ---------------------------------------------------------------------
  // Lookahead tests: `(?=.*[a-z])`, `(?=.*[A-Z])`, `(?=.*\d)`, `(?=.*[@$!%*?&])`
  // ---------------------------------------------------------------------

  datatype CharClass = Lower | Upper | Digit | Special

  predicate InClass(c: char, cls: CharClass) {
    match cls
    case Lower => 'a' <= c <= 'z'
    case Upper => 'A' <= c <= 'Z'
    case Digit => '0' <= c <= '9'
    case Special => c in "@$!%*?&"
  }

  predicate NoLineBreak(s: string, i: int, j: int)
    requires 0 <= i <= j <= |s|
  {
    forall k | i <= k < j :: !IsLineTerminator(s[k])
  }

  /** `(?=.*[C])` succeeds at position `p`: a character of class C follows `p` on the same line. */
  predicate LookaheadAt(s: string, p: int, cls: CharClass)
    requires 0 <= p <= |s|
  {
    exists j | p <= j < |s| :: InClass(s[j], cls) && NoLineBreak(s, p, j)
  }

  /** `/(?=.*[C])/.test(s)`: the lookahead succeeds at some position. */
  predicate LookaheadTest(s: string, cls: CharClass) {
    exists p | 0 <= p <= |s| :: LookaheadAt(s, p, cls)
  }

  /** `/(?=.*[a-z])(?=.*[A-Z])(?=.*\d)/.test(s)`: all three lookaheads succeed at one position. */
  predicate CompositionTest(s: string) {
    exists p | 0 <= p <= |s| ::
      LookaheadAt(s, p, Lower) && LookaheadAt(s, p, Upper) && LookaheadAt(s, p, Digit)
  }

  predicate Contains(s: string, cls: CharClass) {
    exists j | 0 <= j < |s| :: InClass(s[j], cls)
  }

  /** A single lookahead is tried at every position, so it only asks that the class occurs. */
  lemma LookaheadTestIsContains(s: string, cls: CharClass)
    ensures LookaheadTest(s, cls) <==> Contains(s, cls)
  {
    if Contains(s, cls) {
      var j :| 0 <= j < |s| && InClass(s[j], cls);
      assert LookaheadAt(s, j, cls);
    }
  }

  /** The composition test passes only on strings holding all three classes. */
  lemma CompositionNeedsAllClasses(s: string)
    requires CompositionTest(s)
    ensures Contains(s, Lower) && Contains(s, Upper) && Contains(s, Digit)
  {
  }

  /** Without line terminators the composition test is exactly "all three classes occur". */
  lemma CompositionOnOneLine(s: string)
    requires forall k | 0 <= k < |s| :: !IsLineTerminator(s[k])
    ensures CompositionTest(s) <==> Contains(s, Lower) && Contains(s, Upper) && Contains(s, Digit)
  {
    if Contains(s, Lower) && Contains(s, Upper) && Contains(s, Digit) {
      var i :| 0 <= i < |s| && InClass(s[i], Lower);
      var j :| 0 <= j < |s| && InClass(s[j], Upper);
      var k :| 0 <= k < |s| && InClass(s[k], Digit);
      assert NoLineBreak(s, 0, i) && NoLineBreak(s, 0, j) && NoLineBreak(s, 0, k);
      assert LookaheadAt(s, 0, Lower) && LookaheadAt(s, 0, Upper) && LookaheadAt(s, 0, Digit);
    }
  }

  /** `.` stops at a line break: the three classes on different lines fail the test. */
  lemma CompositionStopsAtLineBreak()
    ensures Contains("a\nA1", Lower) && Contains("a\nA1", Upper) && Contains("a\nA1", Digit)
    ensures !CompositionTest("a\nA1")
  {
    var s := "a\nA1";
    assert InClass(s[0], Lower) && InClass(s[2], Upper) && InClass(s[3], Digit);
    forall p | 0 <= p <= |s|
      ensures !(LookaheadAt(s, p, Lower) && LookaheadAt(s, p, Upper))
    {
      if p == 0 {
        forall j | 0 <= j < |s| && InClass(s[j], Upper) ensures !NoLineBreak(s, 0, j) {
          assert j == 2 && IsLineTerminator(s[1]);
        }
      } else {
        forall j | p <= j < |s| ensures !InClass(s[j], Lower) {
          assert j == 1 || j == 2 || j == 3;
        }
      }
    }
  }
}

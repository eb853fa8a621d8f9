/**
 * The string and regular-expression operations the code analyzer applies to
 * submitted code, as JavaScript defines them: `split('\n')`, `trim()`,
 * `startsWith`, `includes`, and the match counts of the analyzer's patterns.
 *
 * Patterns are counted the way `String.prototype.match` with the `g` flag
 * scans: try a match at the current position; on success count it and resume
 * right after it, otherwise move on by one character.
 */
module JsText {

  // ---------------------------------------------------------------------
  // Character classes
  // ---------------------------------------------------------------------

  /**
   * JavaScript's WhiteSpace and LineTerminator code points: what `trim()`
   * strips and what `\s` matches.
   */
  predicate IsSpace(c: char) {
    var n := c as int;
    (0x09 <= n <= 0x0D) || n == 0x20 || n == 0xA0 || n == 0x1680 ||
    (0x2000 <= n <= 0x200A) || n == 0x2028 || n == 0x2029 || n == 0x202F ||
    n == 0x205F || n == 0x3000 || n == 0xFEFF
  }

  /** `\w` without the `u` flag: ASCII letters, digits and underscore. */
  predicate IsWordChar(c: char) {
    ('a' <= c <= 'z') || ('A' <= c <= 'Z') || ('0' <= c <= '9') || c == '_'
  }

  predicate IsLowerAscii(c: char) {
    'a' <= c <= 'z'
  }

  // ---------------------------------------------------------------------
  // split('\n') and its inverse
  // ---------------------------------------------------------------------

  function NewlineCount(s: string): nat {
    if s == [] then 0 else (if s[0] == '\n' then 1 else 0) + NewlineCount(s[1..])
  }

  /** `s.split('\n')`: the pieces between newlines, in order; never empty. */
  function Split(s: string): (lines: seq<string>)
    ensures |lines| == NewlineCount(s) + 1
    ensures forall i :: 0 <= i < |lines| ==> '\n' !in lines[i]
  {
    if s == [] then [""]
    else
      var rest := Split(s[1..]);
      if s[0] == '\n' then [""] + rest
      else [[s[0]] + rest[0]] + rest[1..]
  }

  /** `lines.join('\n')`. */
  function Join(lines: seq<string>): string
    requires |lines| >= 1
  {
    if |lines| == 1 then lines[0] else lines[0] + "\n" + Join(lines[1..])
  }

  /** Splitting at the newlines loses nothing: joining the lines restores the text. */
  lemma {:induction false} JoinSplit(s: string)
    ensures Join(Split(s)) == s
  {
    if s != [] {
      var rest := Split(s[1..]);
      JoinSplit(s[1..]);
      assert s == [s[0]] + s[1..];
      if s[0] == '\n' {
        assert Split(s) == [""] + rest;
        assert ([""] + rest)[1..] == rest;
      } else {
        assert Split(s) == [[s[0]] + rest[0]] + rest[1..];
        JoinCons(s[0], rest);
      }
    }
  }

  /** Putting a character in front of the first line puts it in front of the joined text. */
  lemma JoinCons(c: char, lines: seq<string>)
    requires |lines| >= 1
    ensures Join([[c] + lines[0]] + lines[1..]) == [c] + Join(lines)
  {
    var joined := [[c] + lines[0]] + lines[1..];
    assert joined[0] == [c] + lines[0];
    if |lines| == 1 {
      assert joined == [[c] + lines[0]];
    } else {
      assert joined[1..] == lines[1..];
      var tail := Join(lines[1..]);
      assert Join(joined) == ([c] + lines[0]) + "\n" + tail;
      assert Join(lines) == lines[0] + "\n" + tail;
      ConsLine(c, lines[0], tail);
    }
  }

  lemma ConsLine(c: char, line: string, tail: string)
    ensures ([c] + line) + "\n" + tail == [c] + (line + "\n" + tail)
  {
  }

  lemma {:induction false} SplitNewlineFree(a: string)
    requires '\n' !in a
    ensures Split(a) == [a]
  {
    if a != [] {
      SplitNewlineFree(a[1..]);
      assert [a[0]] + a[1..] == a;
    }
  }

  lemma {:induction false} SplitAtNewline(a: string, b: string)
    requires '\n' !in a
    ensures Split(a + "\n" + b) == [a] + Split(b)
  {
    if a == [] {
      assert a + "\n" + b == "\n" + b;
      assert ("\n" + b)[1..] == b;
    } else {
      var s := a + "\n" + b;
      assert s[1..] == a[1..] + "\n" + b;
      SplitAtNewline(a[1..], b);
      assert [a[0]] + a[1..] == a;
    }
  }

  /** Joining lines that hold no newline and splitting again gives back the same lines. */
  lemma {:induction false} SplitJoin(lines: seq<string>)
    requires |lines| >= 1
    requires forall i :: 0 <= i < |lines| ==> '\n' !in lines[i]
    ensures Split(Join(lines)) == lines
  {
    if |lines| == 1 {
      SplitNewlineFree(lines[0]);
    } else {
      SplitJoin(lines[1..]);
      SplitAtNewline(lines[0], Join(lines[1..]));
      assert [lines[0]] + lines[1..] == lines;
    }
  }

  /** Sum of the `length`s of the lines, as `reduce((sum, line) => sum + line.length, 0)` computes it. */
  function SumLengths(lines: seq<string>): nat {
    if lines == [] then 0 else SumLengths(lines[..|lines| - 1]) + |lines[|lines| - 1]|
  }

  lemma {:induction false} SumLengthsCons(x: string, ys: seq<string>)
    ensures SumLengths([x] + ys) == |x| + SumLengths(ys)
    decreases |ys|
  {
    if ys != [] {
      var zs := [x] + ys;
      assert zs[..|zs| - 1] == [x] + ys[..|ys| - 1];
      SumLengthsCons(x, ys[..|ys| - 1]);
    }
  }

  lemma {:induction false} JoinLength(lines: seq<string>)
    requires |lines| >= 1
    ensures |Join(lines)| == SumLengths(lines) + |lines| - 1
  {
    if |lines| > 1 {
      JoinLength(lines[1..]);
      SumLengthsCons(lines[0], lines[1..]);
      assert [lines[0]] + lines[1..] == lines;
    } else {
      assert lines == [lines[0]] + [];
      SumLengthsCons(lines[0], []);
    }
  }

  /** The characters of all lines together are the text less its newlines. */
  lemma SplitLengths(s: string)
    ensures SumLengths(Split(s)) + NewlineCount(s) == |s|
  {
    JoinSplit(s);
    JoinLength(Split(s));
  }

  // ---------------------------------------------------------------------
  // trim() and startsWith
  // ---------------------------------------------------------------------

  /** Drops the leading white space: the longest all-space prefix. */
  function TrimStart(s: string): (r: string)
    ensures |r| <= |s| && r == s[|s| - |r|..]
    ensures forall i :: 0 <= i < |s| - |r| ==> IsSpace(s[i])
    ensures r == [] || !IsSpace(r[0])
  {
    if s != [] && IsSpace(s[0]) then TrimStart(s[1..]) else s
  }

  /** Drops the trailing white space: the longest all-space suffix. */
  function TrimEnd(s: string): (r: string)
    ensures |r| <= |s| && r == s[..|r|]
    ensures forall i :: |r| <= i < |s| ==> IsSpace(s[i])
    ensures r == [] || !IsSpace(r[|r| - 1])
  {
    if s != [] && IsSpace(s[|s| - 1]) then TrimEnd(s[..|s| - 1]) else s
  }

  /** `s.trim()`. */
  function Trim(s: string): string {
    TrimEnd(TrimStart(s))
  }

  /** s is r at position a with nothing but white space before and after it. */
  predicate SpaceAround(s: string, a: int, r: string) {
    0 <= a <= |s| - |r| && s[a..a + |r|] == r &&
    (forall i :: 0 <= i < a ==> IsSpace(s[i])) &&
    (forall i :: a + |r| <= i < |s| ==> IsSpace(s[i]))
  }

  /**
   * `trim()` keeps the part of s between its leading and its trailing white
   * space, and that part starts and ends with a non-space.
   */
  lemma TrimIsCore(s: string)
    ensures exists a :: SpaceAround(s, a, Trim(s))
    ensures Trim(s) == [] || (!IsSpace(Trim(s)[0]) && !IsSpace(Trim(s)[|Trim(s)| - 1]))
  {
    TrimSitsInside(s);
    TrimEndsNonSpace(s);
  }

  lemma TrimSitsInside(s: string)
    ensures SpaceAround(s, |s| - |TrimStart(s)|, Trim(s))
  {
    PrefixOfSuffix(s, TrimStart(s), Trim(s));
  }

  lemma TrimEndsNonSpace(s: string)
    ensures Trim(s) == [] || (!IsSpace(Trim(s)[0]) && !IsSpace(Trim(s)[|Trim(s)| - 1]))
  {
    var t := TrimStart(s);
    var r := TrimEnd(t);
    if r != [] {
      assert t != [] && r[0] == t[0];
    }
  }

  /**
   * Cutting all-space ends off both sides: if t is s less an all-space
   * prefix, and r is t less an all-space suffix, then r sits in s between
   * the two.
   */
  lemma PrefixOfSuffix(s: string, t: string, r: string)
    requires |t| <= |s| && t == s[|s| - |t|..] && forall i :: 0 <= i < |s| - |t| ==> IsSpace(s[i])
    requires |r| <= |t| && r == t[..|r|] && forall i :: |r| <= i < |t| ==> IsSpace(t[i])
    ensures SpaceAround(s, |s| - |t|, r)
  {
    var a := |s| - |t|;
    assert s[a..a + |r|] == s[a..][..|r|];
    forall i | a + |r| <= i < |s|
      ensures IsSpace(s[i])
    {
      assert s[i] == t[i - a];
    }
  }

  /** `trim()` leaves nothing exactly when the text is all white space (the falsy `line.trim()`). */
  lemma TrimEmptyIffBlank(s: string)
    ensures Trim(s) == [] <==> forall i :: 0 <= i < |s| ==> IsSpace(s[i])
  {
    var t := TrimStart(s);
    if t != [] {
      assert t[0] == s[|s| - |t|];
    }
  }

  /** `s.startsWith(p)`. */
  predicate StartsWith(s: string, p: string) {
    |p| <= |s| && s[..|p|] == p
  }

  /** `s.includes(p)`: searching s from each position in turn for p. */
  predicate Includes(s: string, p: string) {
    StartsWith(s, p) || (s != [] && Includes(s[1..], p))
  }

  /** p occurs in s at position i. */
  predicate OccursAt(s: string, p: string, i: int) {
    0 <= i <= |s| - |p| && s[i..i + |p|] == p
  }

  /** The search finds p exactly when p occurs at some position of s. */
  lemma {:induction false} IncludesIffOccurs(s: string, p: string)
    ensures Includes(s, p) <==> exists i :: OccursAt(s, p, i)
    decreases |s|
  {
    if StartsWith(s, p) {
      assert OccursAt(s, p, 0);
    } else if s == [] {
    } else {
      IncludesIffOccurs(s[1..], p);
      if exists i :: OccursAt(s, p, i) {
        var i :| OccursAt(s, p, i);
        assert i != 0;
        assert s[1..][i - 1..i - 1 + |p|] == p;
        assert OccursAt(s[1..], p, i - 1);
      }
      if Includes(s[1..], p) {
        var i :| OccursAt(s[1..], p, i);
        assert s[i + 1..i + 1 + |p|] == p;
        assert OccursAt(s, p, i + 1);
      }
    }
  }

  // ---------------------------------------------------------------------
  // Counting lines
  // ---------------------------------------------------------------------

  /** `xs.filter(keep).length`. */
  function CountIf(xs: seq<string>, keep: string -> bool): (n: nat)
    ensures n <= |xs|
  {
    if xs == [] then 0
    else CountIf(xs[..|xs| - 1], keep) + (if keep(xs[|xs| - 1]) then 1 else 0)
  }

  /** A line kept by `filter(line => line.trim())`. */
  predicate IsNonBlankLine(line: string) {
    Trim(line) != []
  }

  /** `filter(keep)` keeps nothing exactly when no element passes `keep`. */
  lemma {:induction false} CountIfZero(xs: seq<string>, keep: string -> bool)
    ensures CountIf(xs, keep) == 0 <==> forall i :: 0 <= i < |xs| ==> !keep(xs[i])
  {
    if xs != [] {
      CountIfZero(xs[..|xs| - 1], keep);
      assert forall i :: 0 <= i < |xs| - 1 ==> xs[..|xs| - 1][i] == xs[i];
    }
  }

  /** Every character of s is white space. */
  predicate AllSpace(s: string) {
    forall i :: 0 <= i < |s| ==> IsSpace(s[i])
  }

  lemma AllSpaceCons(c: char, t: string)
    ensures AllSpace([c] + t) <==> IsSpace(c) && AllSpace(t)
  {
    var u := [c] + t;
    assert u[0] == c;
    assert forall i :: 0 <= i < |t| ==> u[i + 1] == t[i];
  }

  /** Each of the lines is all white space. */
  predicate AllLinesSpace(lines: seq<string>) {
    forall j :: 0 <= j < |lines| ==> AllSpace(lines[j])
  }

  lemma AllLinesSpaceCons(lines: seq<string>)
    requires |lines| >= 1
    ensures AllLinesSpace(lines) <==> AllSpace(lines[0]) && AllLinesSpace(lines[1..])
  {
    assert forall j :: 1 <= j < |lines| ==> lines[1..][j - 1] == lines[j];
  }

  /** A text is all white space exactly when each of its lines is (the newlines being white space). */
  lemma {:induction false} SplitAllSpace(s: string)
    ensures AllSpace(s) <==> AllLinesSpace(Split(s))
    decreases |s|
  {
    if s != [] {
      SplitAllSpace(s[1..]);
      AllSpaceCons(s[0], s[1..]);
      assert [s[0]] + s[1..] == s;
      var rest := Split(s[1..]);
      AllLinesSpaceCons(Split(s));
      AllLinesSpaceCons(rest);
      if s[0] != '\n' {
        AllSpaceCons(s[0], rest[0]);
        assert Split(s)[1..] == rest[1..];
      } else {
        assert Split(s)[1..] == rest;
      }
    }
  }

  /** `code.split('\n').filter(line => line.trim())` is empty exactly when the code is all white space. */
  lemma NoNonBlankLinesIffBlank(code: string)
    ensures CountIf(Split(code), IsNonBlankLine) == 0 <==> AllSpace(code)
  {
    var lines := Split(code);
    CountIfZero(lines, IsNonBlankLine);
    SplitAllSpace(code);
    forall j | 0 <= j < |lines|
      ensures !IsNonBlankLine(lines[j]) <==> AllSpace(lines[j])
    {
      TrimEmptyIffBlank(lines[j]);
    }
  }

  /** A line kept by `filter(line => line.trim().startsWith('//'))`. */
  predicate IsCommentLine(line: string) {
    StartsWith(Trim(line), "//")
  }

  // ---------------------------------------------------------------------
  // A literal pattern under the g flag (/tx\.origin/g, /\.call\(/g, ...)
  // ---------------------------------------------------------------------

  /**
   * Number of matches of the literal p found left to right without overlap.
   * An empty pattern matches at every position, |s| + 1 times.
   */
  function CountLiteral(s: string, p: string): (n: nat)
    ensures p != [] ==> n * |p| <= |s|
    decreases |s|
  {
    if p == [] then |s| + 1
    else if |s| < |p| then 0
    else if s[..|p|] == p then 1 + CountLiteral(s[|p|..], p)
    else CountLiteral(s[1..], p)
  }

  /** `match` finds something exactly when `includes` does. */
  lemma {:induction false} CountLiteralPositiveIffIncludes(s: string, p: string)
    ensures CountLiteral(s, p) > 0 <==> Includes(s, p)
    decreases |s|
  {
    if p != [] && |p| <= |s| && s[..|p|] != p {
      CountLiteralPositiveIffIncludes(s[1..], p);
    } else if p != [] && |s| < |p| && s != [] {
      CountLiteralPositiveIffIncludes(s[1..], p);
    }
  }

  /** Two occurrences of p can never overlap: no proper suffix of p is also a prefix of it. */
  predicate BorderFree(p: string) {
    forall k :: 0 < k < |p| ==> p[k..] != p[..|p| - k]
  }

  /**
   * A check for BorderFree that looks at single characters: wherever the
   * first character of p comes back, the character as far from the end
   * differs from the last one.
   */
  predicate EndsDiffer(p: string) {
    forall k :: 0 < k < |p| ==> p[k] != p[0] || p[|p| - 1 - k] != p[|p| - 1]
  }

  lemma EndsDifferBorderFree(p: string)
    requires EndsDiffer(p)
    ensures BorderFree(p)
  {
    forall k | 0 < k < |p|
      ensures p[k..] != p[..|p| - k]
    {
      if p[k] != p[0] {
        assert p[k..][0] != p[..|p| - k][0];
      } else {
        assert p[k..][|p| - k - 1] != p[..|p| - k][|p| - k - 1];
      }
    }
  }

  /** The positions from i on at which p occurs in s. */
  ghost function OccurrencesFrom(s: string, p: string, i: nat): nat
    requires i <= |s|
    decreases |s| - i
  {
    (if OccursAt(s, p, i) then 1 else 0) + (if i == |s| then 0 else OccurrencesFrom(s, p, i + 1))
  }

  /** The positions at which p occurs in s. */
  ghost function Occurrences(s: string, p: string): nat {
    OccurrencesFrom(s, p, 0)
  }

  /**
   * For a literal whose occurrences cannot overlap, the matches found under
   * the g flag are all of its occurrences.
   */
  lemma CountLiteralIsOccurrences(s: string, p: string)
    requires p != [] && BorderFree(p)
    ensures CountLiteral(s, p) == Occurrences(s, p)
  {
    CountFrom(s, p, 0);
    assert s[0..] == s;
  }

  lemma {:induction false} CountFrom(s: string, p: string, i: nat)
    requires p != [] && BorderFree(p) && i <= |s|
    ensures CountLiteral(s[i..], p) == OccurrencesFrom(s, p, i)
    decreases |s| - i
  {
    var t := s[i..];
    if |t| < |p| {
      NoneLeft(s, p, i);
    } else if t[..|p|] == p {
      assert OccursAt(s, p, i) by { assert s[i..i + |p|] == t[..|p|]; }
      assert t[|p|..] == s[i + |p|..];
      CountFrom(s, p, i + |p|);
      SkipOccurrence(s, p, i, i + 1);
    } else {
      assert !OccursAt(s, p, i) by { assert s[i..i + |p|] == t[..|p|]; }
      assert t[1..] == s[i + 1..];
      CountFrom(s, p, i + 1);
    }
  }

  /** Too close to the end for p to fit: no occurrence is left. */
  lemma {:induction false} NoneLeft(s: string, p: string, i: nat)
    requires p != [] && i <= |s| && |s| - i < |p|
    ensures OccurrencesFrom(s, p, i) == 0
    decreases |s| - i
  {
    if i < |s| {
      NoneLeft(s, p, i + 1);
    }
  }

  /** Nothing starts inside an occurrence of a border-free p. */
  lemma {:induction false} SkipOccurrence(s: string, p: string, i: nat, j: nat)
    requires BorderFree(p) && OccursAt(s, p, i) && i < j <= i + |p|
    ensures OccurrencesFrom(s, p, j) == OccurrencesFrom(s, p, i + |p|)
    decreases i + |p| - j
  {
    if j < i + |p| {
      NoOverlap(s, p, i, j - i);
      SkipOccurrence(s, p, i, j + 1);
    }
  }

  /** An occurrence of a border-free p at i rules out one at i + k for 0 < k < |p|. */
  lemma NoOverlap(s: string, p: string, i: nat, k: nat)
    requires BorderFree(p) && OccursAt(s, p, i) && 0 < k < |p|
    ensures !OccursAt(s, p, i + k)
  {
    if i + k + |p| <= |s| {
      var w := s[i + k..i + k + |p|];
      assert w[..|p| - k] == p[k..];
      assert w[..|p| - k] != p[..|p| - k];
    }
  }

  // ---------------------------------------------------------------------
  // Whole-word keywords: /\b(if|while|for|require)\b/g, /\bpure\b|\bview\b/g
  // ---------------------------------------------------------------------

  /** Length of the run of word characters at the start of s. */
  function WordRunLength(s: string): (n: nat)
    ensures n <= |s|
    ensures forall i :: 0 <= i < n ==> IsWordChar(s[i])
    ensures n == |s| || !IsWordChar(s[n])
  {
    if s != [] && IsWordChar(s[0]) then 1 + WordRunLength(s[1..]) else 0
  }

  /** Length of the run of white space at the start of s. */
  function SpaceRunLength(s: string): (n: nat)
    ensures n <= |s|
    ensures forall i :: 0 <= i < n ==> IsSpace(s[i])
    ensures n == |s| || !IsSpace(s[n])
  {
    if s != [] && IsSpace(s[0]) then 1 + SpaceRunLength(s[1..]) else 0
  }

  /**
   * The maximal runs of word characters, left to right. A match of
   * `\bw\b` for a word w is exactly such a run equal to w: `\b` before a
   * word character means the run starts there, `\b` after its last
   * character means the run ends there.
   */
  function Words(s: string): (ws: seq<string>)
    ensures forall i :: 0 <= i < |ws| ==> ws[i] != []
    ensures forall i, j :: 0 <= i < |ws| && 0 <= j < |ws[i]| ==> IsWordChar(ws[i][j])
    decreases |s|
  {
    if s == [] then []
    else if !IsWordChar(s[0]) then Words(s[1..])
    else
      var n := WordRunLength(s);
      [s[..n]] + Words(s[n..])
  }

  /** How many of the words ws belong to the keyword set ks. */
  function CountIn(ws: seq<string>, ks: set<string>): (n: nat)
    ensures n <= |ws|
  {
    if ws == [] then 0 else (if ws[0] in ks then 1 else 0) + CountIn(ws[1..], ks)
  }

  /**
   * Matches of `\b(k1|k2|...)\b` under the g flag: for a set of `\w` words,
   * exactly the number of positions at which the pattern matches.
   */
  function CountKeywords(s: string, ks: set<string>): (n: nat)
    ensures IsWordSet(ks) ==> n == KeywordMatches(s, ks)
  {
    WordsCountKeywords(s, ks);
    CountIn(Words(s), ks)
  }

  /** Keywords as the alternatives of these patterns are: non-empty words of `\w` characters. */
  predicate IsWordSet(ks: set<string>) {
    forall k :: k in ks ==> IsWord(k)
  }

  /** A non-empty word of `\w` characters. */
  predicate IsWord(k: string) {
    k != [] && forall j :: 0 <= j < |k| ==> IsWordChar(k[j])
  }

  /** `\b` at position i: a word character on exactly one side of it. */
  predicate Boundary(s: string, i: int)
    requires 0 <= i <= |s|
  {
    (0 < i && IsWordChar(s[i - 1])) != (i < |s| && IsWordChar(s[i]))
  }

  /** `\bk\b` matches at position i. */
  predicate KeywordMatchAt(s: string, i: int, k: string)
    requires 0 <= i <= |s|
  {
    i + |k| <= |s| && Boundary(s, i) && s[i..i + |k|] == k && Boundary(s, i + |k|)
  }

  /** `\b(k1|k2|...)\b` matches at position i: some alternative does (the engine backtracks through them). */
  ghost predicate KeywordAt(s: string, i: int, ks: set<string>)
    requires 0 <= i <= |s|
  {
    exists k :: k in ks && KeywordMatchAt(s, i, k)
  }

  /** The positions from i on at which the keyword pattern matches. */
  ghost function KeywordPositionsFrom(s: string, ks: set<string>, i: nat): nat
    requires i <= |s|
    decreases |s| - i
  {
    (if KeywordAt(s, i, ks) then 1 else 0) + (if i == |s| then 0 else KeywordPositionsFrom(s, ks, i + 1))
  }

  /**
   * The positions at which the keyword pattern matches. Two matches never
   * overlap (each is a whole run of word characters), so the g scan finds
   * every one of them.
   */
  ghost function KeywordMatches(s: string, ks: set<string>): nat {
    KeywordPositionsFrom(s, ks, 0)
  }

  /** Position i is not inside a run of word characters. */
  predicate OutsideWord(s: string, i: nat)
    requires i <= |s|
  {
    i == 0 || i == |s| || !IsWordChar(s[i - 1]) || !IsWordChar(s[i])
  }

  /** No keyword match starts where there is no word character. */
  lemma NoKeywordAtNonWord(s: string, i: nat, ks: set<string>)
    requires IsWordSet(ks) && i <= |s|
    requires i == |s| || !IsWordChar(s[i])
    ensures !KeywordAt(s, i, ks)
  {
    forall k | k in ks && i + |k| <= |s|
      ensures s[i..i + |k|] != k
    {
      assert IsWordChar(k[0]) && !IsWordChar(s[i..i + |k|][0]);
    }
  }

  /** Inside a run of word characters there is no `\b`, so no match starts there. */
  lemma {:induction false} SkipRun(s: string, ks: set<string>, i: nat, n: nat, j: nat)
    requires i + n <= |s| && forall m :: i <= m < i + n ==> IsWordChar(s[m])
    requires i < j <= i + n
    ensures KeywordPositionsFrom(s, ks, j) == KeywordPositionsFrom(s, ks, i + n)
    decreases i + n - j
  {
    if j < i + n {
      assert !Boundary(s, j);
      SkipRun(s, ks, i, n, j + 1);
    }
  }

  /** At the start of a maximal run of word characters the pattern matches exactly when the run is a keyword. */
  lemma KeywordAtRun(s: string, ks: set<string>, i: nat, n: nat)
    requires IsWordSet(ks) && 0 < n && i + n <= |s|
    requires i == 0 || !IsWordChar(s[i - 1])
    requires forall m :: i <= m < i + n ==> IsWordChar(s[m])
    requires i + n == |s| || !IsWordChar(s[i + n])
    ensures KeywordAt(s, i, ks) <==> s[i..i + n] in ks
  {
    forall k | k in ks && KeywordMatchAt(s, i, k)
      ensures k == s[i..i + n]
    {
    }
    if s[i..i + n] in ks {
      assert KeywordMatchAt(s, i, s[i..i + n]);
    }
  }

  /** Length of the run of word characters starting at position i of s. */
  function WordRunFrom(s: string, i: nat): (n: nat)
    requires i <= |s|
    ensures i + n <= |s|
    ensures forall m :: i <= m < i + n ==> IsWordChar(s[m])
    ensures i + n == |s| || !IsWordChar(s[i + n])
    decreases |s| - i
  {
    if i < |s| && IsWordChar(s[i]) then 1 + WordRunFrom(s, i + 1) else 0
  }

  /** The words of s from position i on that are keywords, counted along the positions of s. */
  ghost function WordKeywordsFrom(s: string, ks: set<string>, i: nat): nat
    requires i <= |s|
    decreases |s| - i
  {
    if i == |s| then 0
    else if !IsWordChar(s[i]) then WordKeywordsFrom(s, ks, i + 1)
    else
      var n := WordRunFrom(s, i);
      (if s[i..i + n] in ks then 1 else 0) + WordKeywordsFrom(s, ks, i + n)
  }

  /** Counting the keywords among the words of the rest of s is counting them along s. */
  lemma {:induction false} WordsFromIndex(s: string, ks: set<string>, i: nat)
    requires i <= |s|
    ensures CountIn(Words(s[i..]), ks) == WordKeywordsFrom(s, ks, i)
    decreases |s| - i
  {
    if i == |s| {
      assert s[i..] == [];
    } else if !IsWordChar(s[i]) {
      assert s[i..][1..] == s[i + 1..];
      WordsFromIndex(s, ks, i + 1);
    } else {
      var n := WordRunFrom(s, i);
      WordCountStep(s, ks, i);
      WordsFromIndex(s, ks, i + n);
    }
  }

  /** From a position outside any word, the keywords counted along s are the keyword matches. */
  lemma {:induction false} WordsCountKeywordsFrom(s: string, ks: set<string>, i: nat)
    requires IsWordSet(ks) && i <= |s| && OutsideWord(s, i)
    ensures WordKeywordsFrom(s, ks, i) == KeywordPositionsFrom(s, ks, i)
    decreases |s| - i, 1
  {
    if i == |s| {
      NoKeywordAtNonWord(s, |s|, ks);
    } else if !IsWordChar(s[i]) {
      FromNonWord(s, ks, i);
    } else {
      FromWord(s, ks, i);
    }
  }

  lemma {:induction false} FromNonWord(s: string, ks: set<string>, i: nat)
    requires IsWordSet(ks) && i < |s| && !IsWordChar(s[i])
    ensures WordKeywordsFrom(s, ks, i) == KeywordPositionsFrom(s, ks, i)
    decreases |s| - i, 0
  {
    NoKeywordAtNonWord(s, i, ks);
    WordsCountKeywordsFrom(s, ks, i + 1);
  }

  lemma {:induction false} FromWord(s: string, ks: set<string>, i: nat)
    requires IsWordSet(ks) && i < |s| && IsWordChar(s[i]) && (i == 0 || !IsWordChar(s[i - 1]))
    ensures WordKeywordsFrom(s, ks, i) == KeywordPositionsFrom(s, ks, i)
    decreases |s| - i, 0
  {
    var n := WordRunFrom(s, i);
    PositionStep(s, ks, i);
    WordsCountKeywordsFrom(s, ks, i + n);
  }

  /** A word starting at i is counted once exactly when it is a keyword. */
  lemma WordCountStep(s: string, ks: set<string>, i: nat)
    requires i < |s| && IsWordChar(s[i])
    ensures var n := WordRunFrom(s, i);
      CountIn(Words(s[i..]), ks) == (if s[i..i + n] in ks then 1 else 0) + CountIn(Words(s[i + n..]), ks)
  {
    var n := WordRunFrom(s, i);
    WordRunAt(s, i);
    var w, rest := s[i..i + n], Words(s[i + n..]);
    assert ([w] + rest)[1..] == rest;
  }

  /**
   * At the start of a word the pattern matches exactly when the word is a
   * keyword, and at no position inside it.
   */
  lemma PositionStep(s: string, ks: set<string>, i: nat)
    requires IsWordSet(ks) && i < |s| && IsWordChar(s[i]) && (i == 0 || !IsWordChar(s[i - 1]))
    ensures var n := WordRunFrom(s, i);
      KeywordPositionsFrom(s, ks, i) == (if s[i..i + n] in ks then 1 else 0) + KeywordPositionsFrom(s, ks, i + n)
  {
    var n := WordRunFrom(s, i);
    KeywordAtRun(s, ks, i, n);
    SkipRun(s, ks, i, n, i + 1);
  }

  /** The run of word characters at the start of the rest of s, and the first of its words. */
  lemma {:induction false} WordRunAt(s: string, i: nat)
    requires i < |s| && IsWordChar(s[i])
    ensures var n := WordRunFrom(s, i);
      WordRunLength(s[i..]) == n && Words(s[i..]) == [s[i..i + n]] + Words(s[i + n..])
    decreases |s| - i
  {
    var t := s[i..];
    assert t[0] == s[i];
    var n := WordRunFrom(s, i);
    RunLengths(s, i);
    assert t[..n] == s[i..i + n];
    assert t[n..] == s[i + n..];
  }

  /** The run measured on the rest of s is the run measured along s. */
  lemma {:induction false} RunLengths(s: string, i: nat)
    requires i <= |s|
    ensures WordRunLength(s[i..]) == WordRunFrom(s, i)
    decreases |s| - i
  {
    if i < |s| && IsWordChar(s[i]) {
      assert s[i..][1..] == s[i + 1..];
      RunLengths(s, i + 1);
    }
  }

  /** Counting the words that are keywords counts the matches of the keyword pattern. */
  lemma WordsCountKeywords(s: string, ks: set<string>)
    ensures IsWordSet(ks) ==> CountIn(Words(s), ks) == KeywordMatches(s, ks)
  {
    if IsWordSet(ks) {
      WordsFromIndex(s, ks, 0);
      WordsCountKeywordsFrom(s, ks, 0);
      assert s[0..] == s;
    }
  }

  /** Keyword counts over disjoint sets add up. */
  lemma {:induction false} CountInUnion(ws: seq<string>, a: set<string>, b: set<string>)
    requires a !! b
    ensures CountIn(ws, a + b) == CountIn(ws, a) + CountIn(ws, b)
  {
    if ws != [] {
      CountInUnion(ws[1..], a, b);
    }
  }

  // ---------------------------------------------------------------------
  // Declarations: /function\s+\w+/g, /modifier\s+\w+/g, /event\s+\w+/g
  // ---------------------------------------------------------------------

  /**
   * Length of the match of `kw\s+\w+` at the start of s, 0 when there is
   * none. Both runs are greedy and `\s` and `\w` share no character, so a
   * match takes all the white space and then the whole word after kw.
   */
  function DeclarationAt(s: string, kw: string): (n: nat)
    ensures n <= |s|
    ensures n > 0 ==> StartsWith(s, kw) && n >= |kw| + 2
  {
    if StartsWith(s, kw) then
      var gap := SpaceRunLength(s[|kw|..]);
      var name := WordRunLength(s[|kw| + gap..]);
      if gap > 0 && name > 0 then |kw| + gap + name else 0
    else 0
  }

  /**
   * Matches of `kw\s+\w+` under the g flag. They do not overlap, and each
   * takes the keyword, at least one space and at least one word character.
   */
  function CountDeclarations(s: string, kw: string): (n: nat)
    ensures n * (|kw| + 2) <= |s|
    decreases |s|
  {
    if s == [] then 0
    else
      var d := DeclarationAt(s, kw);
      if d > 0 then
        var rest := CountDeclarations(s[d..], kw);
        DistributeOne(rest, |kw| + 2);
        1 + rest
      else CountDeclarations(s[1..], kw)
  }

  lemma DistributeOne(a: nat, b: nat)
    ensures (1 + a) * b == b + a * b
  {
  }

  /** `/kw\s+\w+/.test(s)`: a match starts at some position. */
  predicate HasDeclaration(s: string, kw: string) {
    DeclarationAt(s, kw) > 0 || (s != [] && HasDeclaration(s[1..], kw))
  }

  /** `test` succeeds exactly when `match` with the g flag finds at least one match. */
  lemma {:induction false} HasDeclarationIffCounted(s: string, kw: string)
    ensures HasDeclaration(s, kw) <==> CountDeclarations(s, kw) > 0
    decreases |s|
  {
    if s != [] && DeclarationAt(s, kw) == 0 {
      HasDeclarationIffCounted(s[1..], kw);
    }
  }

  /** `function\s+[a-z]` matches at the start of s. */
  predicate LowercaseFunctionAt(s: string) {
    StartsWith(s, "function") &&
    var gap := SpaceRunLength(s[8..]);
    gap > 0 && 8 + gap < |s| && IsLowerAscii(s[8 + gap])
  }

  // The test of the naming pattern `function\s+[a-z][a-zA-Z0-9]*` (no g flag) on s. The
  // trailing repetition may match nothing, so only the first letter of the name matters.
  predicate HasLowercaseFunctionName(s: string) {
    LowercaseFunctionAt(s) || (s != [] && HasLowercaseFunctionName(s[1..]))
  }

  /** A lowercase-named function is also a match of `function\s+\w+`. */
  lemma {:induction false} LowercaseNameIsDeclaration(s: string)
    requires HasLowercaseFunctionName(s)
    ensures CountDeclarations(s, "function") > 0
    decreases |s|
  {
    if LowercaseFunctionAt(s) {
      var gap := SpaceRunLength(s[8..]);
      assert s[8 + gap..][0] == s[8 + gap];
      assert DeclarationAt(s, "function") > 0;
    } else if DeclarationAt(s, "function") == 0 {
      LowercaseNameIsDeclaration(s[1..]);
    }
  }
}

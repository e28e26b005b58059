// String helpers shared by the client script and the route handlers.
// JavaScript strings are modelled as `seq<char>`; the regular-expression
// class `\s` and String.prototype.trim use the same set of white-space and
// line-terminator characters, given by IsSpace below.

module Text {

  /** The characters matched by the JavaScript regular-expression class `\s`
      (and stripped by String.prototype.trim). */
  predicate IsSpace(c: char) {
    || c == '\t' || c == '\n' || c == '\U{000B}' || c == '\U{000C}' || c == '\r'
    || c == ' ' || c == '\U{00A0}' || c == '\U{1680}'
    || ('\U{2000}' <= c <= '\U{200A}')
    || c == '\U{2028}' || c == '\U{2029}' || c == '\U{202F}' || c == '\U{205F}'
    || c == '\U{3000}' || c == '\U{FEFF}'
  }

  predicate IsUpper(c: char) { 'A' <= c <= 'Z' }

  predicate IsLower(c: char) { 'a' <= c <= 'z' }

  /** String.prototype.toLowerCase on one character, restricted to ASCII. */
  function LowerChar(c: char): (r: char)
    ensures !IsUpper(r)
    ensures IsUpper(c) ==> IsLower(r) && r as int == c as int + 32
    ensures !IsUpper(c) ==> r == c
  {
    if IsUpper(c) then (c as int + 32) as char else c
  }

  /** String.prototype.toUpperCase on one character, restricted to ASCII. */
  function UpperChar(c: char): (r: char)
    ensures !IsLower(r)
    ensures IsLower(c) ==> IsUpper(r) && r as int == c as int - 32
    ensures !IsLower(c) ==> r == c
  {
    if IsLower(c) then (c as int - 32) as char else c
  }

  /** String.prototype.toLowerCase, ASCII letters only. */
  function ToLower(s: string): (r: string)
    ensures |r| == |s|
    ensures forall i :: 0 <= i < |r| ==> !IsUpper(r[i])
    ensures forall i :: 0 <= i < |s| && !IsUpper(s[i]) ==> r[i] == s[i]
    ensures forall i :: 0 <= i < |s| && IsUpper(s[i]) ==> r[i] as int == s[i] as int + 32
  {
    seq(|s|, i requires 0 <= i < |s| => LowerChar(s[i]))
  }

  /** `s.replace(/x/g, y)` for a single character `x` replaced by a single character `y`. */
  function ReplaceChar(s: string, x: char, y: char): (r: string)
    ensures |r| == |s|
    ensures x != y ==> x !in r
    ensures forall i :: 0 <= i < |s| ==> r[i] == if s[i] == x then y else s[i]
  {
    seq(|s|, i requires 0 <= i < |s| => if s[i] == x then y else s[i])
  }

  /** `s.replace(/\s/g, y)`: every white-space character becomes `y`. */
  function ReplaceSpaces(s: string, y: char): (r: string)
    ensures |r| == |s|
    ensures !IsSpace(y) ==> forall i :: 0 <= i < |r| ==> !IsSpace(r[i])
    ensures forall i :: 0 <= i < |s| ==> r[i] == if IsSpace(s[i]) then y else s[i]
  {
    seq(|s|, i requires 0 <= i < |s| => if IsSpace(s[i]) then y else s[i])
  }

  predicate StartsWith(s: string, p: string) {
    |p| <= |s| && s[..|p|] == p
  }

  /** True when `p` occurs in `s` at position `i`. */
  predicate OccursAt(s: string, p: string, i: int) {
    0 <= i && i + |p| <= |s| && s[i..i + |p|] == p
  }

  /** An unanchored regular-expression test for a literal: does `p` occur anywhere in `s`? */
  function Contains(s: string, p: string): (r: bool)
    ensures r <==> exists i :: OccursAt(s, p, i)
    decreases |s|
  {
    if |s| < |p| then
      assert forall i :: !OccursAt(s, p, i);
      false
    else if s[..|p|] == p then
      assert OccursAt(s, p, 0);
      true
    else
      var r := Contains(s[1..], p);
      assert forall i :: OccursAt(s, p, i) && i > 0 ==> OccursAt(s[1..], p, i - 1) by {
        forall i | OccursAt(s, p, i) && i > 0 ensures OccursAt(s[1..], p, i - 1) {
          assert s[1..][i - 1..i - 1 + |p|] == s[i..i + |p|];
        }
      }
      assert forall i :: OccursAt(s[1..], p, i) ==> OccursAt(s, p, i + 1) by {
        forall i | OccursAt(s[1..], p, i) ensures OccursAt(s, p, i + 1) {
          assert s[1..][i..i + |p|] == s[i + 1..i + 1 + |p|];
        }
      }
      r
  }

  /** Index of the first occurrence of `c` in `s`, or -1 (String.prototype.indexOf). */
  function IndexOf(s: string, c: char): (r: int)
    ensures -1 <= r < |s|
    ensures r == -1 <==> c !in s
    ensures r >= 0 ==> s[r] == c && c !in s[..r]
  {
    if |s| == 0 then -1
    else if s[0] == c then 0
    else
      var k := IndexOf(s[1..], c);
      if k == -1 then -1
      else
        assert s[..k + 1] == [s[0]] + s[1..][..k];
        k + 1
  }

  /** Index of the last occurrence of `c` in `s`, or -1 (String.prototype.lastIndexOf). */
  function LastIndexOf(s: string, c: char): (r: int)
    ensures -1 <= r < |s|
    ensures r == -1 <==> c !in s
    ensures r >= 0 ==> s[r] == c && c !in s[r + 1..]
  {
    if |s| == 0 then -1
    else if s[|s| - 1] == c then |s| - 1
    else
      var k := LastIndexOf(s[..|s| - 1], c);
      assert k >= 0 ==> s[k + 1..] == s[..|s| - 1][k + 1..] + [s[|s| - 1]];
      k
  }

  /** `s.split(sep)` for a one-character separator: the pieces between separators. */
  function Split(s: string, sep: char): (r: seq<string>)
    ensures |r| >= 1
    ensures forall k :: 0 <= k < |r| ==> sep !in r[k]
    decreases |s|
  {
    var i := IndexOf(s, sep);
    if i == -1 then [s] else [s[..i]] + Split(s[i + 1..], sep)
  }

  /** `words.join(sep)` for a one-character separator: the words in order, one
      separator between each two. */
  function Join(words: seq<string>, sep: char): (r: string)
    ensures |words| > 0 ==> StartsWith(r, words[0])
  {
    if |words| == 0 then ""
    else if |words| == 1 then words[0]
    else words[0] + [sep] + Join(words[1..], sep)
  }

  /** Joining a word in front of a non-empty list. */
  lemma JoinCons(w: string, ws: seq<string>, sep: char)
    requires |ws| >= 1
    ensures Join([w] + ws, sep) == w + [sep] + Join(ws, sep)
  {
    assert ([w] + ws)[1..] == ws;
  }

  /** The pieces of a split at the first separator: the text before it, then the
      pieces of the rest. */
  lemma SplitAtFirst(s: string, sep: char)
    requires sep in s
    ensures var i := IndexOf(s, sep);
      0 <= i < |s| && Split(s, sep) == [s[..i]] + Split(s[i + 1..], sep)
  {
  }

  /** A string is what comes before a position, the character there, and what follows. */
  lemma AroundPosition(s: string, i: nat)
    requires i < |s|
    ensures s == s[..i] + [s[i]] + s[i + 1..]
  {
  }

  /** Splitting at a separator loses nothing: joining the pieces restores the string. */
  lemma {:induction false} JoinSplit(s: string, sep: char)
    ensures Join(Split(s, sep), sep) == s
    decreases |s|
  {
    if sep in s {
      var i := IndexOf(s, sep);
      var rest := s[i + 1..];
      SplitAtFirst(s, sep);
      JoinSplit(rest, sep);
      JoinCons(s[..i], Split(rest, sep), sep);
      assert s == s[..i] + [sep] + rest;
    }
  }

  /** The first piece of `s.split(sep)` is everything before the first separator. */
  lemma FirstPiece(s: string, sep: char)
    ensures Split(s, sep)[0] == if sep in s then s[..IndexOf(s, sep)] else s
  {
  }

  /** String.prototype.trimStart. */
  function TrimStart(s: string): (r: string)
    ensures |r| <= |s| && r == s[|s| - |r|..]
    ensures |r| > 0 ==> !IsSpace(r[0])
    ensures forall i :: 0 <= i < |s| - |r| ==> IsSpace(s[i])
  {
    if |s| > 0 && IsSpace(s[0]) then TrimStart(s[1..]) else s
  }

  /** String.prototype.trimEnd. */
  function TrimEnd(s: string): (r: string)
    ensures |r| <= |s| && r == s[..|r|]
    ensures |r| > 0 ==> !IsSpace(r[|r| - 1])
    ensures forall i :: |r| <= i < |s| ==> IsSpace(s[i])
  {
    if |s| > 0 && IsSpace(s[|s| - 1]) then TrimEnd(s[..|s| - 1]) else s
  }

  /** String.prototype.trim: removes white space at both ends and nothing else. */
  function Trim(s: string): (r: string)
    ensures OccursAt(s, r, |s| - |TrimStart(s)|)
    ensures |r| > 0 ==> !IsSpace(r[0]) && !IsSpace(r[|r| - 1])
    ensures forall i :: |s| - |TrimStart(s)| + |r| <= i < |s| ==> IsSpace(s[i])
  {
    TrimKeepsMiddle(s);
    TrimEndsAreNotSpace(s);
    TrimCutsOnlySpace(s);
    TrimEnd(TrimStart(s))
  }

  lemma TrimKeepsMiddle(s: string)
    ensures OccursAt(s, TrimEnd(TrimStart(s)), |s| - |TrimStart(s)|)
  {
    var t := TrimStart(s);
    PrefixOfSuffixOccurs(s, |s| - |t|, TrimEnd(t));
  }

  /** A prefix of a suffix of `s` occurs in `s` where the suffix starts. */
  lemma PrefixOfSuffixOccurs(s: string, a: nat, r: string)
    requires a <= |s| && |r| <= |s| - a && r == s[a..][..|r|]
    ensures OccursAt(s, r, a)
  {
    assert s[a..a + |r|] == s[a..][..|r|];
  }

  lemma TrimCutsOnlySpace(s: string)
    ensures var t := TrimStart(s);
      forall i :: |s| - |t| + |TrimEnd(t)| <= i < |s| ==> IsSpace(s[i])
  {
    var t := TrimStart(s);
    var a := |s| - |t|;
    forall i | a + |TrimEnd(t)| <= i < |s| ensures IsSpace(s[i]) {
      assert s[i] == t[i - a];
    }
  }

  lemma TrimEndsAreNotSpace(s: string)
    ensures var r := TrimEnd(TrimStart(s)); |r| > 0 ==> !IsSpace(r[0]) && !IsSpace(r[|r| - 1])
  {
    var t := TrimStart(s);
    var r := TrimEnd(t);
    if |r| > 0 {
      assert r[0] == t[0];
    }
  }

  /** Trimming leaves nothing exactly when every character is white space. */
  lemma TrimEmptyIffBlank(s: string)
    ensures Trim(s) == "" <==> forall i :: 0 <= i < |s| ==> IsSpace(s[i])
  {
    var t := TrimStart(s);
    if t != [] {
      assert t[0] == s[|s| - |t|];
    }
  }

  /** Lexicographic order on code points, the order of a binary string comparison. */
  predicate LexLe(a: string, b: string) {
    a == [] || (b != [] && (a[0] < b[0] || (a[0] == b[0] && LexLe(a[1..], b[1..]))))
  }

  lemma {:induction false} LexLeTotal(a: string, b: string)
    ensures LexLe(a, b) || LexLe(b, a)
  {
    if a != [] && b != [] && a[0] == b[0] {
      LexLeTotal(a[1..], b[1..]);
    }
  }

  lemma {:induction false} LexLeTransitive(a: string, b: string, c: string)
    requires LexLe(a, b) && LexLe(b, c)
    ensures LexLe(a, c)
  {
    if a != [] && a[0] == b[0] && b[0] == c[0] {
      LexLeTransitive(a[1..], b[1..], c[1..]);
    }
  }
}

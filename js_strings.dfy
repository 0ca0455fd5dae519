/**
 * The string built-ins the handlers call: `trim`, `toUpperCase` and
 * `toLowerCase`, `startsWith`, `split`, `join`, `indexOf`, `replace` with a
 * string pattern and `replaceAll`.
 */
module JsStrings {
  import opened Wrappers

  /** The characters `String.prototype.trim` and the regular expression `\s` treat as white space. */
  predicate IsSpace(c: char) {
    || c == ' ' || c == '\t' || c == '\n' || c == '\r' || c == '\U{B}' || c == '\U{C}'
    || c == '\U{A0}' || c == '\U{1680}' || ('\U{2000}' <= c <= '\U{200A}')
    || c == '\U{2028}' || c == '\U{2029}' || c == '\U{202F}' || c == '\U{205F}'
    || c == '\U{3000}' || c == '\U{FEFF}'
  }

  /** The characters that `.` in a regular expression does not match. */
  predicate IsLineTerminator(c: char) {
    c == '\n' || c == '\r' || c == '\U{2028}' || c == '\U{2029}'
  }

  predicate AllSpace(s: string) {
    forall k :: 0 <= k < |s| ==> IsSpace(s[k])
  }

  function LeadingSpaceCount(s: string): (n: nat)
    ensures n <= |s|
    ensures AllSpace(s[..n])
    ensures n == |s| || !IsSpace(s[n])
  {
    if s == [] || !IsSpace(s[0]) then 0
    else
      var m := LeadingSpaceCount(s[1..]);
      assert s[..1 + m] == [s[0]] + s[1..][..m];
      1 + m
  }

  function TrailingSpaceCount(s: string): (n: nat)
    ensures n <= |s|
    ensures AllSpace(s[|s| - n..])
    ensures n == |s| || !IsSpace(s[|s| - 1 - n])
  {
    if s == [] || !IsSpace(s[|s| - 1]) then 0
    else
      var m := TrailingSpaceCount(s[..|s| - 1]);
      assert s[|s| - (1 + m)..] == s[..|s| - 1][|s| - 1 - m..] + [s[|s| - 1]];
      1 + m
  }

  /** `s.trimStart()` */
  function TrimStart(s: string): (r: string)
    ensures r == s[LeadingSpaceCount(s)..]
  {
    s[LeadingSpaceCount(s)..]
  }

  /** `trimStart` leaves a suffix that does not start with white space, having removed only white space. */
  lemma TrimStartShape(s: string)
    ensures var r := TrimStart(s);
      && |r| <= |s| && r == s[|s| - |r|..]
      && AllSpace(s[..|s| - |r|])
      && (r == "" || !IsSpace(r[0]))
  {
  }

  /** `s.trimEnd()` */
  function TrimEnd(s: string): (r: string)
    ensures r == s[..|s| - TrailingSpaceCount(s)]
  {
    s[..|s| - TrailingSpaceCount(s)]
  }

  /**
   * `s.trim()`: `s` is white space, then the result, then white space, and the
   * result neither starts nor ends with white space.
   */
  function Trim(s: string): (r: string)
    ensures |r| <= |s|
    ensures r == "" || (!IsSpace(r[0]) && !IsSpace(r[|r| - 1]))
    ensures LeadingSpaceCount(s) + |r| <= |s|
    ensures s == s[..LeadingSpaceCount(s)] + r + s[LeadingSpaceCount(s) + |r|..]
    ensures AllSpace(s[..LeadingSpaceCount(s)]) && AllSpace(s[LeadingSpaceCount(s) + |r|..])
  {
    var a := LeadingSpaceCount(s);
    var rest := TrimStart(s);
    var b := TrailingSpaceCount(rest);
    var r := TrimEnd(rest);
    assert s == s[..a] + r + s[a + |r|..];
    assert s[a + |r|..] == rest[|rest| - b..];
    r
  }

  /** The trimmed text is the piece of `s` just after its leading white space. */
  lemma TrimOccurs(s: string)
    ensures OccursAt(s, Trim(s), LeadingSpaceCount(s))
  {
    var a := LeadingSpaceCount(s);
    var r := Trim(s);
    assert s[a..a + |r|] == (s[..a] + r + s[a + |r|..])[a..a + |r|];
  }

  function LowerChar(c: char): char {
    if 'A' <= c <= 'Z' then (c as int + 32) as char else c
  }

  function UpperChar(c: char): char {
    if 'a' <= c <= 'z' then (c as int - 32) as char else c
  }

  /**
   * `s.toLowerCase()` on ASCII letters: no upper-case letter is left, every
   * other character is kept, and the result upper-cases to what `s` does
   * (the two are equal ignoring case).
   */
  function Lower(s: string): (r: string)
    ensures |r| == |s|
    ensures forall i :: 0 <= i < |r| ==> !('A' <= r[i] <= 'Z')
    ensures forall i :: 0 <= i < |s| && !('A' <= s[i] <= 'Z') ==> r[i] == s[i]
    ensures Upper(r) == Upper(s)
    ensures forall i :: 0 <= i < |s| ==> r[i] == LowerChar(s[i])
  {
    seq(|s|, i requires 0 <= i < |s| => LowerChar(s[i]))
  }

  /** `s.toUpperCase()` on ASCII letters: no lower-case letter is left and every other character is kept. */
  function Upper(s: string): (r: string)
    ensures |r| == |s|
    ensures forall i :: 0 <= i < |r| ==> !('a' <= r[i] <= 'z')
    ensures forall i :: 0 <= i < |s| && !('a' <= s[i] <= 'z') ==> r[i] == s[i]
    ensures forall i :: 0 <= i < |s| ==> r[i] == UpperChar(s[i])
  {
    seq(|s|, i requires 0 <= i < |s| => UpperChar(s[i]))
  }

  predicate StartsWith(s: string, prefix: string) {
    |prefix| <= |s| && s[..|prefix|] == prefix
  }

  /** Whether `p` occurs in `s` at index `j`. */
  predicate OccursAt(s: string, p: string, j: int) {
    0 <= j && j + |p| <= |s| && s[j..j + |p|] == p
  }

  function IndexOfFrom(s: string, p: string, j: nat): (r: Option<nat>)
    requires j <= |s| + 1
    ensures r.Some? ==> j <= r.value && OccursAt(s, p, r.value)
    ensures r.Some? ==> forall k :: j <= k < r.value ==> !OccursAt(s, p, k)
    ensures r.None? ==> forall k :: j <= k ==> !OccursAt(s, p, k)
    decreases |s| + 1 - j
  {
    if j + |p| > |s| then None
    else if s[j..j + |p|] == p then Some(j)
    else IndexOfFrom(s, p, j + 1)
  }

  /** `s.indexOf(p)`, with `None` for -1. */
  function IndexOf(s: string, p: string): (r: Option<nat>)
    ensures r.Some? ==> OccursAt(s, p, r.value)
    ensures r.Some? ==> forall k :: 0 <= k < r.value ==> !OccursAt(s, p, k)
    ensures r.None? ==> forall k :: !OccursAt(s, p, k)
  {
    IndexOfFrom(s, p, 0)
  }

  /** `s.replace(p, rep)` with a string pattern: only the first occurrence is replaced. */
  function ReplaceFirst(s: string, p: string, rep: string): (r: string)
    ensures IndexOf(s, p).None? ==> r == s
    ensures IndexOf(s, p).Some? ==>
      r == s[..IndexOf(s, p).value] + rep + s[IndexOf(s, p).value + |p|..]
  {
    match IndexOf(s, p)
    case None => s
    case Some(i) => s[..i] + rep + s[i + |p|..]
  }

  /**
   * Without an occurrence `s` is kept; otherwise the text before the first
   * occurrence and the text after it are kept and the occurrence becomes
   * `rep`, so replacing a pattern by itself changes nothing.
   */
  lemma ReplaceFirstParts(s: string, p: string, rep: string)
    ensures var r := ReplaceFirst(s, p, rep);
      && (IndexOf(s, p).None? ==> r == s)
      && (IndexOf(s, p).Some? ==>
            var i := IndexOf(s, p).value;
            && |r| + |p| == |s| + |rep|
            && r[..i] == s[..i] && r[i..i + |rep|] == rep && r[i + |rep|..] == s[i + |p|..]
            && (forall k :: 0 <= k < i ==> !OccursAt(s, p, k)))
      && (rep == p ==> r == s)
  {
    var r := ReplaceFirst(s, p, rep);
    match IndexOf(s, p)
    case None =>
    case Some(i) =>
      assert r == s[..i] + rep + s[i + |p|..];
      assert r[..i] == s[..i];
      assert r[i..i + |rep|] == rep;
      assert r[i + |rep|..] == s[i + |p|..];
      if rep == p {
        assert s[i..i + |p|] == p;
        assert s == s[..i] + s[i..i + |p|] + s[i + |p|..];
      }
  }

  /** `s.slice(0, n)`: the first `n` characters, or all of a shorter string. */
  function SliceTo(s: string, n: nat): (r: string)
    ensures |r| == if |s| <= n then |s| else n
    ensures r == s[..|r|]
  {
    if |s| <= n then s else s[..n]
  }

  /**
   * `s.replaceAll(a, b)` for single characters: no `a` is left when `b`
   * differs, each `a` became `b`, and every other character is kept.
   */
  function ReplaceChar(s: string, a: char, b: char): (r: string)
    ensures |r| == |s|
    ensures a != b ==> a !in r
    ensures forall i :: 0 <= i < |s| && s[i] == a ==> r[i] == b
    ensures forall i :: 0 <= i < |s| && s[i] != a ==> r[i] == s[i]
    ensures a !in s ==> r == s
  {
    seq(|s|, i requires 0 <= i < |s| => if s[i] == a then b else s[i])
  }

  /** `parts.join(sep)` */
  function Join(parts: seq<string>, sep: char): string
  {
    if parts == [] then ""
    else if |parts| == 1 then parts[0]
    else parts[0] + [sep] + Join(parts[1..], sep)
  }

  /** A character that is neither the separator nor in any piece is not in the join. */
  lemma {:induction false} JoinAvoids(parts: seq<string>, sep: char, c: char)
    requires c != sep && forall k :: 0 <= k < |parts| ==> c !in parts[k]
    ensures c !in Join(parts, sep)
    decreases |parts|
  {
    if |parts| > 1 {
      JoinAvoids(parts[1..], sep, c);
    }
  }

  function FirstIndexOfChar(s: string, c: char): (i: nat)
    ensures i <= |s|
    ensures forall k :: 0 <= k < i ==> s[k] != c
    ensures i < |s| ==> s[i] == c
  {
    if s == [] || s[0] == c then 0 else 1 + FirstIndexOfChar(s[1..], c)
  }

  /**
   * `s.split(sep)` for a one-character separator: the pieces contain no
   * separator and joining them back gives `s`.
   */
  function Split(s: string, sep: char): (parts: seq<string>)
    ensures |parts| >= 1
    ensures forall k :: 0 <= k < |parts| ==> sep !in parts[k]
    ensures Join(parts, sep) == s
    decreases |s|
  {
    var i := FirstIndexOfChar(s, sep);
    if i == |s| then [s]
    else
      var tail := Split(s[i + 1..], sep);
      assert s == s[..i] + [sep] + s[i + 1..];
      [s[..i]] + tail
  }

  /** Splitting a join of separator-free pieces gives the pieces back. */
  lemma {:induction false} SplitJoin(parts: seq<string>, sep: char)
    requires |parts| >= 1
    requires forall k :: 0 <= k < |parts| ==> sep !in parts[k]
    ensures Split(Join(parts, sep), sep) == parts
    decreases |parts|
  {
    var s := Join(parts, sep);
    var i := FirstIndexOfChar(s, sep);
    if |parts| == 1 {
      assert s == parts[0];
      assert i == |s|;
    } else {
      var rest := Join(parts[1..], sep);
      assert s == parts[0] + [sep] + rest;
      assert s[|parts[0]|] == sep;
      assert s[..|parts[0]|] == parts[0];
      assert forall k :: 0 <= k < |parts[0]| ==> s[k] == parts[0][k];
      FirstIndexAt(s, sep, |parts[0]|);
      assert i == |parts[0]|;
      assert s[i + 1..] == rest;
      SplitJoin(parts[1..], sep);
    }
  }

  lemma FirstIndexAt(s: string, c: char, j: nat)
    requires j < |s| && s[j] == c
    requires forall k :: 0 <= k < j ==> s[k] != c
    ensures FirstIndexOfChar(s, c) == j
  {
  }

  /** Upper-casing (or lower-casing) does not change which characters are white space. */
  lemma {:induction false} LeadingSpaceUpper(s: string)
    ensures LeadingSpaceCount(Upper(s)) == LeadingSpaceCount(s)
    decreases |s|
  {
    if s != [] {
      assert Upper(s)[1..] == Upper(s[1..]);
      LeadingSpaceUpper(s[1..]);
    }
  }

  lemma {:induction false} TrailingSpaceUpper(s: string)
    ensures TrailingSpaceCount(Upper(s)) == TrailingSpaceCount(s)
    decreases |s|
  {
    if s != [] {
      var u := Upper(s);
      var c := s[|s| - 1];
      SpaceUpperChar(c);
      assert u[|s| - 1] == UpperChar(c);
      assert u[..|s| - 1] == Upper(s[..|s| - 1]);
      TrailingSpaceUpper(s[..|s| - 1]);
    }
  }

  lemma SpaceUpperChar(c: char)
    ensures IsSpace(UpperChar(c)) == IsSpace(c)
  {
  }

  lemma SpaceLowerChar(c: char)
    ensures IsSpace(LowerChar(c)) == IsSpace(c)
  {
  }

  lemma TrimStartUpper(s: string)
    ensures TrimStart(Upper(s)) == Upper(TrimStart(s))
  {
    LeadingSpaceUpper(s);
    var a := LeadingSpaceCount(s);
    assert Upper(s)[a..] == Upper(s[a..]);
  }

  lemma TrimEndUpper(s: string)
    ensures TrimEnd(Upper(s)) == Upper(TrimEnd(s))
  {
    TrailingSpaceUpper(s);
    var b := TrailingSpaceCount(s);
    assert Upper(s)[..|s| - b] == Upper(s[..|s| - b]);
  }

  /** `s.trim().toUpperCase()` equals `s.toUpperCase().trim()`. */
  lemma TrimUpperCommute(s: string)
    ensures Trim(Upper(s)) == Upper(Trim(s))
  {
    TrimStartUpper(s);
    TrimEndUpper(TrimStart(s));
  }

  lemma TrimIdempotent(s: string)
    ensures Trim(Trim(s)) == Trim(s)
  {
    var t := Trim(s);
    if t != [] {
      assert LeadingSpaceCount(t) == 0;
      assert t[0..] == t;
      assert TrailingSpaceCount(t) == 0;
    }
  }

  /**
   * Normalising a master-agent code (`String(x).trim().toUpperCase()`) a
   * second time changes nothing, so comparing two normalised codes is stable.
   */
  lemma NormalizeIdempotent(s: string)
    ensures Upper(Trim(Upper(Trim(s)))) == Upper(Trim(s))
  {
    var t := Trim(s);
    TrimIdempotent(s);
    assert Trim(t) == t;
    TrimUpperCommute(t);
    assert Trim(Upper(t)) == Upper(t);
    UpperIdempotent(t);
  }

  lemma UpperIdempotent(s: string)
    ensures Upper(Upper(s)) == Upper(s)
  {
  }

  lemma LowerIdempotent(s: string)
    ensures Lower(Lower(s)) == Lower(s)
  {
  }
}

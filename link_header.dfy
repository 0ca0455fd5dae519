/**
 * `parseNextLink`: the pagination cursor of the identity admin API, taken
 * from a `Link` header of comma-separated `<url>; rel="name"` entries (the
 * format of section 3 of RFC 8288, Web Linking, read ad hoc). Each piece of
 * `header.split(",")` is searched for the regular expression
 * `<([^>]+)>;\s*rel="next"`, and the first capture wins.
 */
module LinkHeader {
  import opened Wrappers
  import opened JsStrings

  const Rel := "rel=\"next\""

  /**
   * Where `[^>]+` stops when the expression is tried at the start of `s`:
   * the index of the first `>` after the opening `<`, or `|s|` for none.
   */
  function CloseAt(s: string): (c: nat)
    requires s != []
    ensures 1 <= c <= |s|
    ensures forall k :: 1 <= k < c ==> s[k] != '>'
    ensures c < |s| ==> s[c] == '>'
  {
    var j := FirstIndexOfChar(s[1..], '>');
    assert forall k :: 1 <= k < 1 + j ==> s[k] == s[1..][k - 1];
    1 + j
  }

  /** `;\s*rel="next"` at the start of `after`. */
  predicate RelFollows(after: string) {
    after != [] && after[0] == ';' && StartsWith(TrimStart(after[1..]), Rel)
  }

  /**
   * The regular expression tried at the start of `s`: `<`, then the
   * non-empty run of characters other than `>` up to the first `>`, then
   * `;\s*rel="next"`. `[^>]+` cannot run past the first `>`, and `rel` does
   * not begin with white space, so this is the only way the expression can
   * match here.
   */
  function MatchHere(s: string): Option<string>
  {
    if s == [] || s[0] != '<' then None
    else
      var c := CloseAt(s);
      if c == 1 || c == |s| || !RelFollows(s[c + 1..]) then None
      else Some(s[1..c])
  }

  /** The regular expression tried at index `i` of `p`. */
  function MatchAt(p: string, i: nat): Option<string>
  {
    if i >= |p| then None else MatchHere(p[i..])
  }

  /** `p.match(re)`: the leftmost match at or after `i`. */
  function FirstMatchFrom(p: string, i: nat): Option<string>
    decreases |p| - i
  {
    if i >= |p| then None
    else if MatchAt(p, i).Some? then MatchAt(p, i)
    else FirstMatchFrom(p, i + 1)
  }

  function FirstMatch(p: string): Option<string> {
    FirstMatchFrom(p, 0)
  }

  /** The capture of the first piece that matches. */
  function FirstPartMatch(parts: seq<string>): Option<string>
  {
    if parts == [] then None
    else if FirstMatch(parts[0]).Some? then FirstMatch(parts[0])
    else FirstPartMatch(parts[1..])
  }

  /** What `parseNextLink(linkHeader)` returns; `null` for an absent or empty header. */
  function NextLink(header: string): Option<string>
  {
    if header == "" then None else FirstPartMatch(Split(header, ','))
  }

  /** `parseNextLink`, with its loop over the comma-separated pieces. */
  method ParseNextLink(header: string) returns (r: Option<string>)
    ensures r == NextLink(header)
    ensures header == "" ==> r.None?
  {
    if header == "" {
      return None;
    }
    var parts := Split(header, ',');
    var i := 0;
    while i < |parts|
      invariant 0 <= i <= |parts|
      invariant FirstPartMatch(parts[i..]) == NextLink(header)
    {
      assert parts[i..][1..] == parts[i + 1..];
      var m := FirstMatch(parts[i]);
      if m.Some? {
        return m;
      }
      i := i + 1;
    }
    return None;
  }

  // ---------------------------------------------------------------------
  // The regular expression, read as a language: MatchAt(p, i) == Some(u)
  // exactly when `<u>;` + white space + `rel="next"` occurs at `i` with a
  // non-empty `u` free of `>`.

  function Pattern(u: string, w: string): string {
    "<" + u + ">;" + w + Rel
  }

  predicate MatchesAs(p: string, i: nat, u: string, w: string) {
    u != "" && '>' !in u && AllSpace(w) && OccursAt(p, Pattern(u, w), i)
  }

  lemma PatternFacts(u: string, w: string)
    ensures var t := Pattern(u, w);
      |t| == 3 + |u| + |w| + |Rel| && t[0] == '<' && t[1 + |u|] == '>' && t[2 + |u|] == ';'
      && (forall k :: 0 <= k < |u| ==> t[1 + k] == u[k])
      && (forall k :: 0 <= k < |w| ==> t[3 + |u| + k] == w[k])
      && (forall k :: 0 <= k < |Rel| ==> t[3 + |u| + |w| + k] == Rel[k])
  {
  }

  lemma {:induction false} LeadingSpaceCountIs(t: string, n: nat)
    requires n < |t| && !IsSpace(t[n])
    requires forall k :: 0 <= k < n ==> IsSpace(t[k])
    ensures LeadingSpaceCount(t) == n
    decreases n
  {
    if n > 0 {
      assert forall k :: 0 <= k < n - 1 ==> t[1..][k] == t[k + 1];
      LeadingSpaceCountIs(t[1..], n - 1);
    }
  }

  lemma CloseAtIs(s: string, c: nat)
    requires 1 <= c < |s| && s[c] == '>'
    requires forall k :: 1 <= k < c ==> s[k] != '>'
    ensures CloseAt(s) == c
  {
  }

  lemma RelFollowsAt(after: string, w: string)
    requires AllSpace(w) && |after| >= 1 + |w| + |Rel| && after[0] == ';'
    requires forall k :: 0 <= k < |w| ==> after[1 + k] == w[k]
    requires forall k :: 0 <= k < |Rel| ==> after[1 + |w| + k] == Rel[k]
    ensures RelFollows(after)
  {
    var tail := after[1..];
    assert forall k :: 0 <= k < |w| ==> tail[k] == w[k];
    assert tail[|w|] == Rel[0] == 'r';
    LeadingSpaceCountIs(tail, |w|);
    assert forall k :: 0 <= k < |Rel| ==> TrimStart(tail)[k] == Rel[k];
    assert TrimStart(tail)[..|Rel|] == Rel;
  }

  /** What a string that begins with `Pattern(u, w)` holds where. */
  lemma PatternAtStart(s: string, u: string, w: string)
    requires StartsWith(s, Pattern(u, w))
    ensures |s| >= 3 + |u| + |w| + |Rel| && s[0] == '<' && s[1 + |u|] == '>'
    ensures forall k :: 0 <= k < |u| ==> s[1 + k] == u[k]
    ensures s[|u| + 2..][0] == ';'
    ensures forall k :: 0 <= k < |w| ==> s[|u| + 2..][1 + k] == w[k]
    ensures forall k :: 0 <= k < |Rel| ==> s[|u| + 2..][1 + |w| + k] == Rel[k]
  {
    var t := Pattern(u, w);
    PatternFacts(u, w);
    assert forall q :: 0 <= q < |t| ==> s[q] == t[q];
  }

  lemma MatchHereComplete(s: string, u: string, w: string)
    requires u != "" && '>' !in u && AllSpace(w) && StartsWith(s, Pattern(u, w))
    ensures MatchHere(s) == Some(u)
  {
    PatternAtStart(s, u, w);
    var c := 1 + |u|;
    CloseAtIs(s, c);
    assert s[1..c] == u;
    RelFollowsAt(s[c + 1..], w);
  }

  lemma MatchHereSound(s: string) returns (w: string)
    requires MatchHere(s).Some?
    ensures var u := MatchHere(s).value;
      u != "" && '>' !in u && AllSpace(w) && StartsWith(s, Pattern(u, w))
  {
    var c := CloseAt(s);
    var u := s[1..c];
    assert MatchHere(s) == Some(u);
    assert forall k :: 0 <= k < |u| ==> u[k] == s[1 + k];
    var after := s[c + 1..];
    assert RelFollows(after);
    var tail := after[1..];
    var n := LeadingSpaceCount(tail);
    w := tail[..n];
    w := SoundTail(s, c, w);
  }

  lemma SoundTail(s: string, c: nat, w0: string) returns (w: string)
    requires 1 < c < |s| && s[c] == '>' && s[0] == '<'
    requires forall k :: 1 <= k < c ==> s[k] != '>'
    requires RelFollows(s[c + 1..])
    requires w0 == s[c + 1..][1..][..LeadingSpaceCount(s[c + 1..][1..])]
    ensures w == w0
    ensures AllSpace(w) && StartsWith(s, Pattern(s[1..c], w))
  {
    w := w0;
    var u := s[1..c];
    var after := s[c + 1..];
    var tail := after[1..];
    var n := |w|;
    assert tail[n..][..|Rel|] == Rel;
    var t := Pattern(u, w);
    PatternFacts(u, w);
    forall q | 0 <= q < |t| ensures s[q] == t[q] {
      if 3 + |u| + |w| <= q {
        assert s[q] == tail[n..][q - 3 - |u| - |w|];
      } else if 3 + |u| <= q {
        assert s[q] == w[q - 3 - |u|];
      } else if 1 <= q < 1 + |u| {
        assert s[q] == u[q - 1];
      }
    }
    assert s[..|t|] == t;
  }

  lemma OccursAsPrefix(p: string, i: nat, t: string)
    ensures OccursAt(p, t, i) <==> i <= |p| && StartsWith(p[i..], t)
  {
    if i <= |p| && StartsWith(p[i..], t) {
      assert p[i..i + |t|] == p[i..][..|t|];
    }
    if OccursAt(p, t, i) {
      assert p[i..][..|t|] == p[i..i + |t|];
    }
  }

  /** The regular expression's meaning, both ways. */
  lemma MatchAtIff(p: string, i: nat, u: string)
    ensures MatchAt(p, i) == Some(u) <==> exists w :: MatchesAs(p, i, u, w)
  {
    if MatchAt(p, i) == Some(u) {
      var w := MatchHereSound(p[i..]);
      OccursAsPrefix(p, i, Pattern(u, w));
      assert MatchesAs(p, i, u, w);
    }
    if exists w :: MatchesAs(p, i, u, w) {
      var w :| MatchesAs(p, i, u, w);
      OccursAsPrefix(p, i, Pattern(u, w));
      PatternFacts(u, w);
      MatchHereComplete(p[i..], u, w);
    }
  }

  /** Whatever `parseNextLink` returns is a non-empty URL free of `>` and `,`. */
  lemma {:induction false} NextLinkShape(header: string)
    ensures NextLink(header).Some? ==>
      var u := NextLink(header).value;
      u != "" && '>' !in u && ',' !in u
  {
    if header != "" {
      var parts := Split(header, ',');
      PartMatchShape(parts);
    }
  }

  lemma {:induction false} PartMatchShape(parts: seq<string>)
    requires forall k :: 0 <= k < |parts| ==> ',' !in parts[k]
    ensures FirstPartMatch(parts).Some? ==>
      var u := FirstPartMatch(parts).value;
      u != "" && '>' !in u && ',' !in u
    decreases |parts|
  {
    if parts != [] {
      if FirstMatch(parts[0]).Some? {
        FirstMatchShape(parts[0], 0);
      } else {
        PartMatchShape(parts[1..]);
      }
    }
  }

  lemma {:induction false} FirstMatchShape(p: string, i: nat)
    requires ',' !in p
    ensures FirstMatchFrom(p, i).Some? ==>
      var u := FirstMatchFrom(p, i).value;
      u != "" && '>' !in u && ',' !in u
    decreases |p| - i
  {
    if i < |p| {
      if MatchAt(p, i).Some? {
        var s := p[i..];
        var w := MatchHereSound(s);
        var u := MatchHere(s).value;
        PatternFacts(u, w);
        assert forall k :: 0 <= k < |u| ==> u[k] == s[1 + k] == p[i + 1 + k];
      } else {
        FirstMatchShape(p, i + 1);
      }
    }
  }

  // ---------------------------------------------------------------------
  // Round trip: a header rendered from entries gives back the URL of the
  // first entry whose relation is "next".

  datatype LinkEntry = LinkEntry(url: string, rel: string)

  /** An entry the header format can carry unambiguously. */
  predicate Plain(e: LinkEntry) {
    e.url != "" && '>' !in e.url && ',' !in e.url
    && ',' !in e.rel && '"' !in e.rel && '>' !in e.rel
  }

  function RelWord(r: string): string {
    "rel=\"" + r + "\""
  }

  function EntryTail(r: string): string {
    ";" + " " + RelWord(r)
  }

  function EntryText(e: LinkEntry): string {
    "<" + e.url + ">" + EntryTail(e.rel)
  }

  function Piece(es: seq<LinkEntry>, k: nat): string
    requires k < |es|
  {
    (if k == 0 then "" else " ") + EntryText(es[k])
  }

  function Pieces(es: seq<LinkEntry>): seq<string> {
    seq(|es|, k requires 0 <= k < |es| => Piece(es, k))
  }

  /** `<u1>; rel="r1", <u2>; rel="r2", …` */
  function RenderLinks(es: seq<LinkEntry>): string {
    Join(Pieces(es), ',')
  }

  function FirstNextUrl(es: seq<LinkEntry>): Option<string> {
    if es == [] then None
    else if es[0].rel == "next" then Some(es[0].url)
    else FirstNextUrl(es[1..])
  }

  lemma RelPrefix(r: string)
    requires '"' !in r
    ensures StartsWith(RelWord(r), Rel) <==> r == "next"
  {
    var s := RelWord(r);
    assert |s| == |r| + 6 && s[..5] == "rel=\"";
    if r == "next" {
      assert s == Rel;
    } else if |r| >= 5 {
      assert s[9] == r[4] != Rel[9];
    } else if |r| < 4 {
      assert s[5 + |r|] == '"' != Rel[5 + |r|];
    } else {
      assert s[5..9] == r;
      assert Rel[5..9] == "next";
    }
  }

  lemma {:induction false} NoMatchFrom(p: string, i: nat)
    requires forall k :: i <= k ==> MatchAt(p, k).None?
    ensures FirstMatchFrom(p, i).None?
    decreases |p| - i
  {
    if i < |p| {
      NoMatchFrom(p, i + 1);
    }
  }

  lemma {:induction false} SkipToMatch(p: string, i: nat, m: nat)
    requires i <= m < |p| && MatchAt(p, m).Some?
    requires forall k :: i <= k < m ==> MatchAt(p, k).None?
    ensures FirstMatchFrom(p, i) == MatchAt(p, m)
    decreases m - i
  {
    if i < m {
      SkipToMatch(p, i + 1, m);
    }
  }

  /** The only `>` of a plain entry's text closes its URL, and what follows it. */
  lemma PieceLayout(sp: string, e: LinkEntry)
    requires Plain(e) && AllSpace(sp)
    ensures var p := sp + EntryText(e); var g := |sp| + 1 + |e.url|;
      g < |p| && p[g + 1..] == EntryTail(e.rel)
      && forall q :: 0 <= q < |p| && q != g ==> p[q] != '>'
  {
    var p := sp + EntryText(e);
    var g := |sp| + 1 + |e.url|;
    var rest := EntryTail(e.rel);
    assert p == sp + (['<'] + (e.url + (['>'] + rest)));
    assert p[g + 1..] == rest;
    forall q | 0 <= q < |p| && q != g ensures p[q] != '>' {
      if q < |sp| {
        assert p[q] == sp[q];
      } else if q == |sp| {
        assert p[q] == '<';
      } else if q < g {
        assert p[q] == e.url[q - |sp| - 1];
      } else {
        assert p[q] == rest[q - g - 1];
      }
    }
  }

  lemma EntryFacts(e: LinkEntry)
    ensures var t := EntryText(e); var g := 1 + |e.url|; var r := RelWord(e.rel);
      |t| == g + 3 + |r| && t[g + 1] == ';' && t[g + 2] == ' ' && r[0] == 'r'
      && forall k :: 0 <= k < |r| ==> t[g + 3 + k] == r[k]
  {
  }

  /** `;\s*rel="next"` can follow a URL in an entry only when its relation is "next". */
  lemma TailRel(r: string, w: string)
    requires AllSpace(w) && '"' !in r
    requires var a := EntryTail(r);
      |a| >= 1 + |w| + |Rel|
      && (forall k :: 0 <= k < |w| ==> a[1 + k] == w[k])
      && (forall k :: 0 <= k < |Rel| ==> a[1 + |w| + k] == Rel[k])
    ensures r == "next"
  {
    var a := EntryTail(r);
    var word := RelWord(r);
    assert a[1] == ' ' && a[2] == 'r';
    assert forall k :: 0 <= k < |word| ==> a[2 + k] == word[k];
    assert a[1 + |w|] == Rel[0] == 'r';
    assert forall k :: 0 <= k < |w| ==> a[1..][k] == w[k];
    LeadingSpaceCountIs(a[1..], |w|);
    LeadingSpaceCountIs(a[1..], 1);
    assert forall k :: 0 <= k < |Rel| ==> word[k] == Rel[k];
    assert word[..|Rel|] == Rel;
    RelPrefix(r);
  }

  lemma PieceMatchAt(sp: string, e: LinkEntry, i: nat)
    requires Plain(e) && AllSpace(sp)
    ensures MatchAt(sp + EntryText(e), i).Some? ==> e.rel == "next"
  {
    var p := sp + EntryText(e);
    if MatchAt(p, i).Some? {
      var s := p[i..];
      var w := MatchHereSound(s);
      var x := MatchHere(s).value;
      PatternAtStart(s, x, w);
      PieceLayout(sp, e);
      var g := |sp| + 1 + |e.url|;
      assert p[i + 1 + |x|] == s[1 + |x|] == '>';
      assert i + 1 + |x| == g;
      assert s[|x| + 2..] == p[g + 1..] == EntryTail(e.rel);
      TailRel(e.rel, w);
    }
  }

  lemma PieceFirstMatch(sp: string, e: LinkEntry)
    requires Plain(e) && AllSpace(sp) && '<' !in sp
    ensures FirstMatch(sp + EntryText(e)) == if e.rel == "next" then Some(e.url) else None
  {
    if e.rel == "next" {
      NextPieceMatches(sp, e);
    } else {
      OtherPieceUnmatched(sp, e);
    }
  }

  /** An entry tagged "next" matches at its `<`, after the white space before it. */
  lemma NextPieceMatches(sp: string, e: LinkEntry)
    requires Plain(e) && AllSpace(sp) && '<' !in sp && e.rel == "next"
    ensures FirstMatch(sp + EntryText(e)) == Some(e.url)
  {
    var p := sp + EntryText(e);
    var t := EntryText(e);
    NextEntryIsPattern(e);
    assert p[|sp|..] == t;
    assert t[..|t|] == t;
    MatchHereComplete(t, e.url, " ");
    forall k | 0 <= k < |sp| ensures MatchAt(p, k).None? {
      assert p[k..][0] == sp[k];
    }
    SkipToMatch(p, 0, |sp|);
  }

  /** The text of an entry tagged "next" is the expression's pattern with one space. */
  lemma NextEntryIsPattern(e: LinkEntry)
    requires e.rel == "next"
    ensures EntryText(e) == Pattern(e.url, " ")
  {
    assert RelWord(e.rel) == Rel;
    ConcatShift("<" + e.url, ">", ";", " " + Rel);
    assert EntryTail(e.rel) == ";" + (" " + Rel);
  }

  lemma ConcatShift(a: string, b: string, c: string, d: string)
    ensures a + b + (c + d) == a + (b + c) + d
  {
  }

  /** An entry with another relation matches nowhere. */
  lemma OtherPieceUnmatched(sp: string, e: LinkEntry)
    requires Plain(e) && AllSpace(sp) && e.rel != "next"
    ensures FirstMatch(sp + EntryText(e)).None?
  {
    var p := sp + EntryText(e);
    forall k | 0 <= k ensures MatchAt(p, k).None? {
      PieceMatchAt(sp, e, k);
    }
    NoMatchFrom(p, 0);
  }

  lemma PiecesCommaFree(es: seq<LinkEntry>)
    requires forall k :: 0 <= k < |es| ==> Plain(es[k])
    ensures forall k :: 0 <= k < |es| ==> ',' !in Pieces(es)[k]
  {
    forall k | 0 <= k < |es| ensures ',' !in Pieces(es)[k] {
      var e := es[k];
      var lead := if k == 0 then "" else " ";
      assert ',' !in lead;
      EntryCommaFree(e);
      assert Pieces(es)[k] == lead + EntryText(e);
    }
  }

  lemma EntryCommaFree(e: LinkEntry)
    requires Plain(e)
    ensures ',' !in EntryText(e)
  {
    var tail := EntryTail(e.rel);
    assert ',' !in RelWord(e.rel);
    assert ',' !in tail;
    assert EntryText(e) == "<" + e.url + ">" + tail;
  }

  lemma {:induction false} PartsFrom(es: seq<LinkEntry>, j: nat)
    requires j <= |es|
    requires forall k :: 0 <= k < |es| ==> Plain(es[k])
    ensures FirstPartMatch(Pieces(es)[j..]) == FirstNextUrl(es[j..])
    decreases |es| - j
  {
    if j < |es| {
      var ps := Pieces(es)[j..];
      assert ps[0] == Piece(es, j);
      assert ps[1..] == Pieces(es)[j + 1..];
      assert es[j..][0] == es[j] && es[j..][1..] == es[j + 1..];
      PieceFirstMatch(if j == 0 then "" else " ", es[j]);
      PartsFrom(es, j + 1);
    } else {
      assert Pieces(es)[j..] == [] && es[j..] == [];
    }
  }

  /**
   * For a header rendered from plain entries, `parseNextLink` yields the URL
   * of the first entry tagged `rel="next"`, and `null` when none is.
   */
  lemma NextLinkOfRendered(es: seq<LinkEntry>)
    requires forall k :: 0 <= k < |es| ==> Plain(es[k])
    ensures NextLink(RenderLinks(es)) == FirstNextUrl(es)
  {
    if es == [] {
      assert RenderLinks(es) == "";
    } else {
      PiecesCommaFree(es);
      SplitJoin(Pieces(es), ',');
      assert RenderLinks(es) != "" by {
        assert |Pieces(es)[0]| > 0;
        assert |Pieces(es)| == 1 || RenderLinks(es) == Pieces(es)[0] + [','] + Join(Pieces(es)[1..], ',');
      }
      PartsFrom(es, 0);
      assert Pieces(es)[0..] == Pieces(es);
      assert es[0..] == es;
    }
  }
}

/**
 * The two `parseDataUrl` helpers that read a `data:<mime>;base64,<payload>`
 * URL (the base64 form of section 3 of RFC 2397). Neither decodes the
 * payload here: the decoded bytes are left to `Buffer.from`, which is not
 * part of this model.
 */
module DataUrls {
  import opened Wrappers
  import opened JsStrings

  datatype DataUrl = DataUrl(mime: string, payload: string)

  const Marker := ";base64,"

  /** `"data:" + mime + ";base64," + payload` */
  function Render(d: DataUrl): string {
    "data:" + d.mime + Marker + d.payload
  }

  /** No character that the regular expression `.` refuses. */
  predicate NoLineTerminator(s: string) {
    forall i :: 0 <= i < |s| ==> !IsLineTerminator(s[i])
  }

  // --- ma-submissions-list.js: /^data:([^;]+);base64,(.+)$/ -------------

  /** What `/^data:([^;]+);base64,(.+)$/` captures: a MIME type without `;`, and a one-line payload. */
  predicate StrictForm(d: DataUrl) {
    d.mime != "" && ';' !in d.mime && d.payload != "" && NoLineTerminator(d.payload)
  }

  /** The strict parser: the MIME type runs to the first `;`, which must open `;base64,`. */
  function ParseStrict(s: string): (r: Option<DataUrl>)
    ensures r.Some? ==> StrictForm(r.value) && s == Render(r.value)
  {
    if !StartsWith(s, "data:") then None
    else
      var rest := s[5..];
      var i := FirstIndexOfChar(rest, ';');
      var tail := rest[i..];
      if i == 0 || !StartsWith(tail, Marker) then None
      else
        var payload := tail[8..];
        if payload == "" || !NoLineTerminator(payload) then None
        else
          assert s == s[..5] + rest && rest == rest[..i] + tail && tail == tail[..8] + payload;
          assert ';' !in rest[..i] by {
            forall k | 0 <= k < i ensures rest[..i][k] != ';' { }
          }
          Some(DataUrl(rest[..i], payload))
  }

  /** Every URL of the strict form is accepted, with exactly its parts: the parse is the regular expression's match. */
  lemma StrictParseComplete(d: DataUrl)
    requires StrictForm(d)
    ensures ParseStrict(Render(d)) == Some(d)
  {
    var s := Render(d);
    assert s[..5] == "data:";
    var rest := s[5..];
    assert rest == d.mime + Marker + d.payload;
    assert rest[|d.mime|] == ';';
    assert forall k :: 0 <= k < |d.mime| ==> rest[k] == d.mime[k];
    FirstIndexAt(rest, ';', |d.mime|);
    assert rest[..|d.mime|] == d.mime;
    assert rest[|d.mime|..] == Marker + d.payload;
  }

  /** Hence the strict parser fails exactly on the strings that are no rendering of a strict-form URL. */
  lemma StrictParseIff(s: string, d: DataUrl)
    ensures ParseStrict(s) == Some(d) <==> StrictForm(d) && s == Render(d)
  {
    if StrictForm(d) && s == Render(d) {
      StrictParseComplete(d);
    }
  }

  // --- agent-submission-create.js: /^data:(.+);base64,(.+)$/ ------------

  /** What `/^data:(.+);base64,(.+)$/` can capture: a one-line MIME type, which may hold `;`, and a one-line payload. */
  predicate GreedyForm(d: DataUrl) {
    d.mime != "" && d.payload != "" && NoLineTerminator(d.mime) && NoLineTerminator(d.payload)
  }

  /** The last `;base64,` at an index in `6..hi`, the one a greedy `(.+)` stops at. */
  function LastMarkerAt(s: string, hi: int): (r: Option<nat>)
    ensures r.Some? ==> 6 <= r.value <= hi && OccursAt(s, Marker, r.value)
    ensures r.Some? ==> forall k :: r.value < k <= hi ==> !OccursAt(s, Marker, k)
    ensures r.None? ==> forall k :: 6 <= k <= hi ==> !OccursAt(s, Marker, k)
    decreases hi
  {
    if hi < 6 then None
    else if OccursAt(s, Marker, hi) then Some(hi)
    else LastMarkerAt(s, hi - 1)
  }

  /** The greedy parser: the MIME type runs to the last `;base64,` that still leaves a payload. */
  function ParseGreedy(s: string): (r: Option<DataUrl>)
    ensures r.Some? ==> GreedyForm(r.value) && s == Render(r.value)
  {
    if !StartsWith(s, "data:") || !NoLineTerminator(s) then None
    else
      match LastMarkerAt(s, |s| - 9)
      case None => None
      case Some(j) =>
        var d := DataUrl(s[5..j], s[j + 8..]);
        assert s == s[..5] + s[5..j] + s[j..j + 8] + s[j + 8..];
        assert NoLineTerminator(d.mime) by {
          forall k | 0 <= k < |d.mime| ensures !IsLineTerminator(d.mime[k]) { assert d.mime[k] == s[5 + k]; }
        }
        assert NoLineTerminator(d.payload) by {
          forall k | 0 <= k < |d.payload| ensures !IsLineTerminator(d.payload[k]) { assert d.payload[k] == s[j + 8 + k]; }
        }
        Some(d)
  }

  lemma RenderNoLineTerminator(d: DataUrl)
    requires GreedyForm(d)
    ensures NoLineTerminator(Render(d))
  {
    var s := Render(d);
    forall i | 0 <= i < |s| ensures !IsLineTerminator(s[i]) {
      if i < 5 {
      } else if i < 5 + |d.mime| {
        assert s[i] == d.mime[i - 5];
      } else if i < 13 + |d.mime| {
        assert s[i] == Marker[i - 5 - |d.mime|];
      } else {
        assert s[i] == d.payload[i - 13 - |d.mime|];
      }
    }
  }

  /**
   * Every way of reading a string as a greedy-form URL is accepted, and the
   * parser returns the reading with the longest MIME type, as a greedy
   * `(.+)` does.
   */
  lemma GreedyParseLongest(d: DataUrl)
    requires GreedyForm(d)
    ensures ParseGreedy(Render(d)).Some?
    ensures |d.mime| <= |ParseGreedy(Render(d)).value.mime|
  {
    var s := Render(d);
    RenderNoLineTerminator(d);
    assert s[..5] == "data:";
    var j := 5 + |d.mime|;
    assert s[j..j + 8] == Marker;
    assert OccursAt(s, Marker, j);
  }

  /** Every URL the strict parser accepts with a one-line MIME type is also accepted by the greedy one. */
  lemma GreedyAcceptsStrict(s: string)
    requires ParseStrict(s).Some? && NoLineTerminator(ParseStrict(s).value.mime)
    ensures ParseGreedy(s).Some?
  {
    GreedyParseLongest(ParseStrict(s).value);
  }

  /** A MIME parameter before `;base64,` is refused by the strict parser ... */
  lemma StrictRefusesParameter()
    ensures ParseStrict("data:a;b;base64,QQ") == None
  {
    var s := "data:a;b;base64,QQ";
    var rest := s[5..];
    assert rest == "a;b;base64,QQ";
    FirstIndexAt(rest, ';', 1);
    assert rest[1..][..8][2] == ';' != Marker[2];
  }

  /** ... and kept as part of the MIME type by the greedy one. */
  lemma GreedyKeepsParameter()
    ensures ParseGreedy("data:a;b;base64,QQ") == Some(DataUrl("a;b", "QQ"))
  {
    var s := "data:a;b;base64,QQ";
    assert |s| == 18 && s[..5] == "data:";
    RenderNoLineTerminator(DataUrl("a;b", "QQ"));
    assert Render(DataUrl("a;b", "QQ")) == s;
    assert !OccursAt(s, Marker, 9) by { assert s[9..17][0] == 'b' != Marker[0]; }
    assert OccursAt(s, Marker, 8) by { assert s[8..16] == Marker; }
    assert s[5..8] == "a;b" && s[16..] == "QQ";
  }
}

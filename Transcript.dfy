/**
 * The transcript service (main.py): pulling a video id out of a YouTube link,
 * fetching its captions with a one-step English fallback, and shaping the
 * answer of the `/getting_script` endpoint.
 *
 * The caption provider is a parameter: a total function from a video id and a
 * language code to the caption entries, where `None` stands for any exception
 * the provider raises.
 */
module Transcript {
  import opened Wrappers
  import opened Strings

  /** The marker whose presence anywhere in a link selects the short-link rule. */
  const ShortHost: string := "youtu.be"
  /** The language asked for when the requested one fails. */
  const FallbackLanguage: string := "en"
  const FailureMessage: string := "Failed to get transcript"
  const PossibleReasons: seq<string> :=
    ["Video has no captions", "Language not available", "Invalid YouTube URL"]

  /** One caption entry as the provider returns it; only `text` is read. */
  datatype Entry = Entry(text: string)

  /** The caption provider: `None` when the call raises. */
  type Provider = (string, string) -> Option<seq<Entry>>

  /** One provider call, `get_transcript(videoId, languages=[language])`. */
  datatype Call = Call(videoId: string, language: string)

  /** What one run of the fetch did: the provider calls in order, and the text. */
  datatype Fetch = Fetch(calls: seq<Call>, text: Option<string>)

  /** One `name=value` pair of a query string. */
  datatype Param = Param(name: string, value: string)

  /** The endpoint's answer: the success body, or the 400 error detail. */
  datatype ScriptResponse =
    | Success(videoUrl: string, language: string, transcript: string)
    | Failure(status: int, message: string, reasons: seq<string>)

  // ---------------------------------------------------------------------------
  // Video-id extraction

  /** The query part of a URL: after the first `?`, before any `#` fragment. */
  function QueryOf(url: string): (q: string)
    ensures '#' !in q
  {
    AfterFirst(FirstSegment(url, '#'), '?')
  }

  /**
   * The pairs a query string yields, in order: it is split on `&`; a piece
   * without `=` or with an empty value is dropped; otherwise the name is the
   * text before the first `=` and the value the text after it.
   */
  function ParseQs(query: string): (ps: seq<Param>)
    ensures forall k :: 0 <= k < |ps| ==>
      |ps[k].value| > 0 && '&' !in ps[k].value && '&' !in ps[k].name && '=' !in ps[k].name
  {
    PairsOf(Split(query, '&'))
  }

  function PairsOf(pieces: seq<string>): (ps: seq<Param>)
    requires forall i :: 0 <= i < |pieces| ==> '&' !in pieces[i]
    ensures forall k :: 0 <= k < |ps| ==>
      |ps[k].value| > 0 && '&' !in ps[k].value && '&' !in ps[k].name && '=' !in ps[k].name
  {
    if |pieces| == 0 then []
    else
      var piece := pieces[0];
      var rest := PairsOf(pieces[1..]);
      if '=' in piece && |AfterFirst(piece, '=')| > 0 then
        [Param(FirstSegment(piece, '='), AfterFirst(piece, '='))] + rest
      else
        rest
  }

  /** `parse_qs(query).get(name, [None])[0]`: the value of the first pair called `name`. */
  function FirstValue(ps: seq<Param>, name: string): (r: Option<string>)
    ensures r.None? <==> forall k :: 0 <= k < |ps| ==> ps[k].name != name
    ensures r.Some? ==> exists k :: 0 <= k < |ps| && ps[k] == Param(name, r.value) &&
                                    forall j :: 0 <= j < k ==> ps[j].name != name
  {
    if |ps| == 0 then None
    else if ps[0].name == name then Some(ps[0].value)
    else
      var r := FirstValue(ps[1..], name);
      if r.Some? then
        var k :| 0 <= k < |ps[1..]| && ps[1..][k] == Param(name, r.value) &&
          forall j :: 0 <= j < k ==> ps[1..][j].name != name;
        assert ps[k + 1] == Param(name, r.value);
        r
      else
        r
  }

  /**
   * `extract_video_id`: with `youtu.be` anywhere in the link, the last
   * `/`-separated segment cut at its first `?`; otherwise the first `v`
   * value of the query, or `None`.
   */
  function ExtractVideoId(url: string): (r: Option<string>)
    ensures Contains(url, ShortHost) ==>
      && r.Some? && '/' !in r.value && '?' !in r.value
      && var tail := LastSegment(url, '/');
         && r.value <= tail
         && (|r.value| < |tail| ==> tail[|r.value|] == '?')
         && '/' !in tail && url[|url| - |tail|..] == tail
         && (|tail| < |url| ==> url[|url| - |tail| - 1] == '/')
    ensures !Contains(url, ShortHost) ==> r == FirstValue(ParseQs(QueryOf(url)), "v")
    ensures !Contains(url, ShortHost) ==>
      && (r.None? <==> forall k :: 0 <= k < |ParseQs(QueryOf(url))| ==> ParseQs(QueryOf(url))[k].name != "v")
      && (r.Some? ==> |r.value| > 0 && '&' !in r.value)
  {
    if Contains(url, ShortHost) then
      Some(FirstSegment(LastSegment(url, '/'), '?'))
    else
      FirstValue(ParseQs(QueryOf(url)), "v")
  }

  // ---------------------------------------------------------------------------
  // Fetching the transcript

  /** The entries' texts, in provider order. */
  function Texts(entries: seq<Entry>): (ts: seq<string>)
    ensures |ts| == |entries| && forall i :: 0 <= i < |entries| ==> ts[i] == entries[i].text
  {
    seq(|entries|, i requires 0 <= i < |entries| => entries[i].text)
  }

  /** `" ".join(entry['text'] for entry in transcript)`. */
  function TranscriptText(entries: seq<Entry>): string {
    Join(Texts(entries), " ")
  }

  /**
   * `get_youtube_text`: reject a missing or empty id before any provider
   * call; ask for the requested language; only if that raises, ask for
   * English; join the texts of whichever call answered.
   */
  function GetYoutubeText(url: string, lang: string, provider: Provider): (r: Fetch)
    ensures r.calls == [] <==> ExtractVideoId(url).None? || ExtractVideoId(url).value == []
    ensures r.calls == [] ==> r.text.None?
    ensures r.calls != [] ==> r.calls[0] == Call(ExtractVideoId(url).value, lang)
    ensures |r.calls| <= 2
    ensures |r.calls| == 2 <==> r.calls != [] && provider(r.calls[0].videoId, lang).None?
    ensures |r.calls| == 2 ==> r.calls[1] == Call(r.calls[0].videoId, FallbackLanguage)
    ensures r.text.Some? <==> exists k :: 0 <= k < |r.calls| && provider(r.calls[k].videoId, r.calls[k].language).Some?
    ensures r.text.Some? ==>
      var last := r.calls[|r.calls| - 1];
      && provider(last.videoId, last.language).Some?
      && r.text.value == TranscriptText(provider(last.videoId, last.language).value)
  {
    var id := ExtractVideoId(url);
    if id.None? || id.value == [] then
      Fetch([], None)
    else
      var first := provider(id.value, lang);
      if first.Some? then
        Fetch([Call(id.value, lang)], Some(TranscriptText(first.value)))
      else
        var second := provider(id.value, FallbackLanguage);
        Fetch([Call(id.value, lang), Call(id.value, FallbackLanguage)],
              if second.Some? then Some(TranscriptText(second.value)) else None)
  }

  /** `get_script`: a non-empty text is a success echoing the request; anything else is the fixed 400. */
  function GetScript(url: string, language: string, provider: Provider): (r: ScriptResponse)
    ensures var text := GetYoutubeText(url, language, provider).text;
      r.Success? <==> text.Some? && text.value != []
    ensures r.Success? ==>
      r == Success(url, language, GetYoutubeText(url, language, provider).text.value)
    ensures r.Failure? ==>
      r.status == 400 && r.message == FailureMessage && r.reasons == PossibleReasons && |r.reasons| == 3
  {
    var text := GetYoutubeText(url, language, provider).text;
    if text.Some? && text.value != [] then
      Success(url, language, text.value)
    else
      Failure(400, FailureMessage, PossibleReasons)
  }

  // ---------------------------------------------------------------------------
  // Properties

  /** The transcript text is empty exactly when there are no entries or a single empty one. */
  predicate BlankTranscript(entries: seq<Entry>) {
    |entries| == 0 || (|entries| == 1 && entries[0].text == [])
  }

  lemma TranscriptTextEmpty(entries: seq<Entry>)
    ensures TranscriptText(entries) == [] <==> BlankTranscript(entries)
  {
    JoinIsEmpty(Texts(entries), " ");
  }

  /** When no entry text holds a space, splitting the transcript on spaces gives the texts back. */
  lemma TranscriptTextSplits(entries: seq<Entry>)
    requires |entries| > 0
    requires forall i :: 0 <= i < |entries| ==> ' ' !in entries[i].text
    ensures Split(TranscriptText(entries), ' ') == Texts(entries)
  {
    SplitJoin(Texts(entries), ' ');
  }

  /**
   * The endpoint succeeds exactly when the id is usable and the answering
   * call (requested language, else English) returned a non-blank transcript.
   */
  lemma GetScriptSucceeds(url: string, language: string, provider: Provider)
    ensures GetScript(url, language, provider).Success? <==>
      var id := ExtractVideoId(url);
      && id.Some? && id.value != []
      && var first := provider(id.value, language);
         var answer := if first.Some? then first else provider(id.value, FallbackLanguage);
         answer.Some? && !BlankTranscript(answer.value)
  {
    var id := ExtractVideoId(url);
    if id.Some? && id.value != [] {
      var first := provider(id.value, language);
      var answer := if first.Some? then first else provider(id.value, FallbackLanguage);
      if answer.Some? {
        TranscriptTextEmpty(answer.value);
      }
    }
  }

  /**
   * The requested language fails and English answers: the English text is
   * returned, after exactly the two calls, and the endpoint still echoes the
   * requested language.
   */
  lemma EnglishFallback(url: string, lang: string, provider: Provider, entries: seq<Entry>)
    requires ExtractVideoId(url).Some? && ExtractVideoId(url).value != []
    requires provider(ExtractVideoId(url).value, lang).None?
    requires provider(ExtractVideoId(url).value, FallbackLanguage) == Some(entries)
    requires !BlankTranscript(entries)
    ensures var id := ExtractVideoId(url).value;
      GetYoutubeText(url, lang, provider) ==
        Fetch([Call(id, lang), Call(id, FallbackLanguage)], Some(TranscriptText(entries)))
    ensures GetScript(url, lang, provider) == Success(url, lang, TranscriptText(entries))
  {
    TranscriptTextEmpty(entries);
  }

  /** Both attempts raise: no text, and the endpoint answers the fixed 400. */
  lemma BothAttemptsFail(url: string, lang: string, provider: Provider)
    requires ExtractVideoId(url).Some? && ExtractVideoId(url).value != []
    requires provider(ExtractVideoId(url).value, lang).None?
    requires provider(ExtractVideoId(url).value, FallbackLanguage).None?
    ensures GetYoutubeText(url, lang, provider).text.None?
    ensures GetScript(url, lang, provider) == Failure(400, FailureMessage, PossibleReasons)
  {
  }

  /** Only the two calls the trace records influence the outcome: providers agreeing on them give the same run. */
  lemma FetchDependsOnlyOnCalls(url: string, lang: string, p: Provider, q: Provider)
    requires forall c :: c in GetYoutubeText(url, lang, p).calls ==> p(c.videoId, c.language) == q(c.videoId, c.language)
    ensures GetYoutubeText(url, lang, q) == GetYoutubeText(url, lang, p)
  {
    var r := GetYoutubeText(url, lang, p);
    if r.calls != [] {
      assert r.calls[0] in r.calls;
      if |r.calls| == 2 {
        assert r.calls[1] in r.calls;
      }
    }
  }

  /**
   * A short link `…youtu.be…/ID`, optionally followed by `?query` without a
   * `/`, yields `ID`.
   */
  lemma ShortLinkId(prefix: string, id: string, rest: string)
    requires Contains(prefix, ShortHost)
    requires '/' !in id && '?' !in id && '/' !in rest
    requires rest == [] || rest[0] == '?'
    ensures ExtractVideoId(prefix + "/" + id + rest) == Some(id)
  {
    ShortLinkMarker(prefix, id, rest);
    ShortLinkTail(prefix, id, rest);
    ShortLinkBranch(prefix + "/" + id + rest);
  }

  /** The marker in the prefix is still found in the whole link. */
  lemma ShortLinkMarker(prefix: string, id: string, rest: string)
    requires Contains(prefix, ShortHost)
    ensures Contains(prefix + "/" + id + rest, ShortHost)
  {
    assert prefix + "/" + id + rest == prefix + ("/" + id + rest);
    ContainsExtends(prefix, "/" + id + rest);
  }

  /** With the marker present the id is the cut last segment. */
  lemma ShortLinkBranch(url: string)
    requires Contains(url, ShortHost)
    ensures ExtractVideoId(url) == Some(FirstSegment(LastSegment(url, '/'), '?'))
  {
  }

  /** The last `/`-segment of `prefix/ID…`, cut at `?`, is `ID`. */
  lemma ShortLinkTail(prefix: string, id: string, rest: string)
    requires '/' !in id && '?' !in id && '/' !in rest
    requires rest == [] || rest[0] == '?'
    ensures FirstSegment(LastSegment(prefix + "/" + id + rest, '/'), '?') == id
  {
    var url := prefix + "/" + id + rest;
    assert url == prefix + ['/'] + (id + rest);
    SplitTail(prefix, id + rest, '/');
    CutAtQuery(id, rest);
  }

  /** `ID` followed by nothing or by `?…` is cut back to `ID` at the first `?`. */
  lemma CutAtQuery(id: string, rest: string)
    requires '?' !in id
    requires rest == [] || rest[0] == '?'
    ensures FirstSegment(id + rest, '?') == id
  {
    if rest == [] {
      assert id + rest == id;
    } else {
      assert id + rest == id + ['?'] + rest[1..];
      SplitAtFirst(id, '?', rest[1..]);
    }
  }

  /**
   * A watch link `base?v=ID`, optionally followed by `&more`, yields `ID`
   * (no `#` anywhere, no `youtu.be` anywhere).
   */
  lemma WatchLinkId(base: string, id: string, tail: string)
    requires '?' !in base && '#' !in base && '#' !in tail && '#' !in id
    requires |id| > 0 && '&' !in id
    requires tail == [] || tail[0] == '&'
    requires !Contains(base + "?v=" + id + tail, ShortHost)
    ensures ExtractVideoId(base + "?v=" + id + tail) == Some(id)
  {
    WatchLinkQuery(base, id, tail);
    WatchLinkFromQuery(base + "?v=" + id + tail, id);
  }

  /**
   * A watch link whose `v=ID` comes after other pairs, `base?front&v=ID…`,
   * yields `ID` as long as no pair parsed from `front` is called `v`
   * (`watch?feature=share&v=ID`, or `watch?v=&v=ID`, whose blank `v` is dropped).
   */
  lemma WatchLinkIdLater(base: string, front: string, id: string, tail: string)
    requires '?' !in base && '#' !in base && '#' !in front && '#' !in tail && '#' !in id
    requires |id| > 0 && '&' !in id
    requires tail == [] || tail[0] == '&'
    requires forall k :: 0 <= k < |ParseQs(front)| ==> ParseQs(front)[k].name != "v"
    requires !Contains(base + "?" + front + "&v=" + id + tail, ShortHost)
    ensures ExtractVideoId(base + "?" + front + "&v=" + id + tail) == Some(id)
  {
    WatchLinkQueryLater(base, front, id, tail);
    WatchLinkFromQuery(base + "?" + front + "&v=" + id + tail, id);
  }

  /** The first `v` value in the query of `base?v=ID…` is `ID`. */
  lemma WatchLinkQuery(base: string, id: string, tail: string)
    requires '?' !in base && '#' !in base && '#' !in tail && '#' !in id
    requires |id| > 0 && '&' !in id
    requires tail == [] || tail[0] == '&'
    ensures FirstValue(ParseQs(QueryOf(base + "?v=" + id + tail)), "v") == Some(id)
  {
    var query := "v=" + id + tail;
    assert base + "?v=" + id + tail == base + ['?'] + query;
    QueryAfterMark(base, query);
    VQueryFirst(id, tail);
  }

  /** The first `v` value in the query of `base?front&v=ID…` is `ID` when `front` has no `v` pair. */
  lemma WatchLinkQueryLater(base: string, front: string, id: string, tail: string)
    requires '?' !in base && '#' !in base && '#' !in front && '#' !in tail && '#' !in id
    requires |id| > 0 && '&' !in id
    requires tail == [] || tail[0] == '&'
    requires forall k :: 0 <= k < |ParseQs(front)| ==> ParseQs(front)[k].name != "v"
    ensures FirstValue(ParseQs(QueryOf(base + "?" + front + "&v=" + id + tail)), "v") == Some(id)
  {
    var later := "v=" + id + tail;
    var query := front + "&" + later;
    assert base + "?" + front + "&v=" + id + tail == base + ['?'] + query;
    QueryAfterMark(base, query);
    ParseQsConcat(front, later);
    VQueryFirst(id, tail);
    FirstValueSkip(ParseQs(front), ParseQs(later), "v");
  }

  /** Without the marker, a first `v` value `ID` in the query is the extracted id. */
  lemma WatchLinkFromQuery(url: string, id: string)
    requires !Contains(url, ShortHost)
    requires FirstValue(ParseQs(QueryOf(url)), "v") == Some(id)
    ensures ExtractVideoId(url) == Some(id)
  {
  }

  /** The query of `base?query`, with no `?` in `base` and no `#` at all, is `query`. */
  lemma QueryAfterMark(base: string, query: string)
    requires '?' !in base && '#' !in base && '#' !in query
    ensures QueryOf(base + ['?'] + query) == query
  {
    var url := base + ['?'] + query;
    assert '#' !in url;
    SplitAtFirst(base, '?', query);
  }

  /** A query that starts with `v=ID` has `ID` as its first `v` value. */
  lemma VQueryFirst(id: string, tail: string)
    requires |id| > 0 && '&' !in id
    requires tail == [] || tail[0] == '&'
    ensures FirstValue(ParseQs("v=" + id + tail), "v") == Some(id)
  {
    VPiece(id);
    if tail != [] {
      assert "v=" + id + tail == ("v=" + id) + "&" + tail[1..];
      ParseQsConcat("v=" + id, tail[1..]);
      HeadPairFirst(Param("v", id), ParseQs(tail[1..]));
    } else {
      assert "v=" + id + tail == "v=" + id;
      HeadPairFirst(Param("v", id), []);
      assert [Param("v", id)] + [] == [Param("v", id)];
    }
  }

  /** The piece `v=ID` yields the one pair `v`/`ID`. */
  lemma VPiece(id: string)
    requires |id| > 0 && '&' !in id
    ensures ParseQs("v=" + id) == [Param("v", id)]
  {
    assert "v" + "=" + id == "v=" + id;
    ParseQsPair("v", id);
  }

  /** A pair at the head of the list gives the first value of its name. */
  lemma HeadPairFirst(p: Param, rest: seq<Param>)
    ensures FirstValue([p] + rest, p.name) == Some(p.value)
  {
    assert ([p] + rest)[0] == p;
  }

  /** `name=value` splits at its first `=` into the name and the value. */
  lemma PieceParses(name: string, value: string)
    requires '=' !in name
    ensures '=' in name + "=" + value
    ensures FirstSegment(name + "=" + value, '=') == name && AfterFirst(name + "=" + value, '=') == value
  {
    assert name + "=" + value == name + ['='] + value;
    SplitAtFirst(name, '=', value);
  }

  /** Parsing the pieces of two lists one after the other gives the pairs of each, in order. */
  lemma {:induction false} PairsOfConcat(xs: seq<string>, ys: seq<string>)
    requires forall i :: 0 <= i < |xs| ==> '&' !in xs[i]
    requires forall i :: 0 <= i < |ys| ==> '&' !in ys[i]
    ensures PairsOf(xs + ys) == PairsOf(xs) + PairsOf(ys)
    decreases |xs|
  {
    if |xs| > 0 {
      assert (xs + ys)[0] == xs[0];
      assert (xs + ys)[1..] == xs[1..] + ys;
      PairsOfConcat(xs[1..], ys);
    } else {
      assert xs + ys == ys;
    }
  }

  /** `parse_qs` reads the two sides of an `&` independently: the pairs of `a`, then those of `b`. */
  lemma ParseQsConcat(a: string, b: string)
    ensures ParseQs(a + "&" + b) == ParseQs(a) + ParseQs(b)
  {
    assert a + "&" + b == a + ['&'] + b;
    SplitConcat(a, b, '&');
    PairsOfConcat(Split(a, '&'), Split(b, '&'));
  }

  /** A single `name=value` piece with a non-empty value yields exactly that pair. */
  lemma ParseQsPair(name: string, value: string)
    requires '=' !in name && '&' !in name
    requires |value| > 0 && '&' !in value
    ensures ParseQs(name + "=" + value) == [Param(name, value)]
  {
    var piece := name + "=" + value;
    assert '&' !in piece;
    assert Split(piece, '&') == [piece];
    PieceParses(name, value);
    assert [piece][1..] == [];
    assert PairsOf([piece]) == [Param(name, value)] + PairsOf([]);
  }

  /**
   * A single piece yields no pair exactly when nothing follows a first `=`:
   * it has no `=`, or its value is blank (`keep_blank_values` is off).
   */
  lemma ParseQsDropped(piece: string)
    requires '&' !in piece
    ensures ParseQs(piece) == [] <==> AfterFirst(piece, '=') == []
  {
    assert Split(piece, '&') == [piece];
    assert [piece][1..] == [];
    var ps := PairsOf([piece]);
    if AfterFirst(piece, '=') == [] {
      assert ps == PairsOf([]);
    } else {
      assert '=' in piece;
      assert ps == [Param(FirstSegment(piece, '='), AfterFirst(piece, '='))] + PairsOf([]);
    }
  }

  /** Pairs with other names before the list do not change the first value of `name`. */
  lemma {:induction false} FirstValueSkip(xs: seq<Param>, ys: seq<Param>, name: string)
    requires forall k :: 0 <= k < |xs| ==> xs[k].name != name
    ensures FirstValue(xs + ys, name) == FirstValue(ys, name)
    decreases |xs|
  {
    if |xs| > 0 {
      assert (xs + ys)[0] == xs[0];
      assert (xs + ys)[1..] == xs[1..] + ys;
      FirstValueSkip(xs[1..], ys, name);
    } else {
      assert xs + ys == ys;
    }
  }

  /** A blank `v` is dropped, so `v=&v=ID` has `ID` as its first `v` value. */
  lemma BlankVSkipped(id: string)
    requires |id| > 0 && '&' !in id
    ensures FirstValue(ParseQs("v=&v=" + id), "v") == Some(id)
  {
    var later := "v=" + id;
    assert "v=&v=" + id == "v=" + "&" + later;
    ParseQsConcat("v=", later);
    BlankVDropped();
    VPiece(id);
    HeadPairFirst(Param("v", id), []);
    assert [] + [Param("v", id)] == [Param("v", id)] + [];
  }

  /** The piece `v=` has a blank value and yields no pair. */
  lemma BlankVDropped()
    ensures ParseQs("v=") == []
  {
    PieceParses("v", "");
    assert "v" + "=" + "" == "v=";
    ParseQsDropped("v=");
  }

  /** The last segment of `p + [c] + t`, when `t` holds no `c`, is `t`. */
  lemma SplitTail(p: string, t: string, c: char)
    requires c !in t
    ensures LastSegment(p + [c] + t, c) == t
  {
    var s := p + [c] + t;
    var r := LastSegment(s, c);
    assert s[|s| - |t| - 1] == c;
    assert s[|s| - |t|..] == t;
  }

  /** An occurrence stays an occurrence when text is appended. */
  lemma ContainsExtends(s: string, more: string)
    requires Contains(s, ShortHost)
    ensures Contains(s + more, ShortHost)
  {
    var i :| OccursAt(s, ShortHost, i);
    assert (s + more)[i..i + |ShortHost|] == s[i..i + |ShortHost|];
    assert OccursAt(s + more, ShortHost, i);
  }
}

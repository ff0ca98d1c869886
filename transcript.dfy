/** Transcript acquisition: pulling text out of what the transcript service returns,
    and the three ordered fetch attempts with their validation. */
module Transcript {
  import opened Wrappers
  import opened Text

  /** A timed snippet; `text` is None when the object has no `text` attribute. */
  datatype Snippet = Snippet(text: Option<string>)

  /** A fetched transcript as `extract_text_from_transcript` probes it: `snippets` is its
      `.snippets` list when it has one that is a list, `entries` what iterating it yields
      (None when iterating raises), and `repr` its `str()`. */
  datatype TranscriptObject = TranscriptObject(
    snippets: Option<seq<Snippet>>,
    entries: Option<seq<Snippet>>,
    repr: string)

  /** `[s.text for s in xs if hasattr(s, 'text')]`: the texts of the snippets that have
      one, in order (`TextsAppend`). */
  function Texts(xs: seq<Snippet>): (ts: seq<string>)
    ensures |ts| <= |xs|
    ensures |xs| == 1 ==> ts == (if xs[0].text.Some? then [xs[0].text.value] else [])
    ensures (forall i :: 0 <= i < |xs| ==> xs[i].text.Some?) ==>
      |ts| == |xs| && forall i :: 0 <= i < |xs| ==> ts[i] == xs[i].text.value
    ensures ts == [] <==> forall i :: 0 <= i < |xs| ==> xs[i].text.None?
  {
    if xs == [] then []
    else
      var rest := Texts(xs[1..]);
      assert forall i :: 1 <= i < |xs| ==> xs[i] == xs[1..][i - 1];
      if xs[0].text.Some? then [xs[0].text.value] + rest else rest
  }

  /** The texts of two runs of snippets are those of the first, then those of the second. */
  lemma {:induction false} TextsAppend(xs: seq<Snippet>, ys: seq<Snippet>)
    ensures Texts(xs + ys) == Texts(xs) + Texts(ys)
  {
    if xs != [] {
      var zs := xs + ys;
      var head := if xs[0].text.Some? then [xs[0].text.value] else [];
      assert zs[0] == xs[0] && zs[1..] == xs[1..] + ys;
      assert Texts(zs) == head + Texts(xs[1..] + ys);
      assert Texts(xs) == head + Texts(xs[1..]);
      TextsAppend(xs[1..], ys);
    } else {
      assert xs + ys == ys;
    }
  }

  /** A snippet list or an iteration yields text: it exists and one of its snippets has
      a `text`. */
  predicate YieldsText(xs: Option<seq<Snippet>>) {
    xs.Some? && exists i :: 0 <= i < |xs.value| && xs.value[i].text.Some?
  }

  /** The snippet texts the extraction uses: those of the snippet list when it yields any,
      otherwise those of the entries; None exactly when neither yields text. */
  function ChosenTexts(t: TranscriptObject): (r: Option<seq<string>>)
    ensures r.Some? ==> r.value != []
    ensures YieldsText(t.snippets) ==> r == Some(Texts(t.snippets.value))
    ensures !YieldsText(t.snippets) && YieldsText(t.entries) ==> r == Some(Texts(t.entries.value))
    ensures r.None? <==> !YieldsText(t.snippets) && !YieldsText(t.entries)
  {
    if t.snippets.Some? && |t.snippets.value| > 0 && Texts(t.snippets.value) != [] then
      Some(Texts(t.snippets.value))
    else if t.entries.Some? && Texts(t.entries.value) != [] then
      Some(Texts(t.entries.value))
    else None
  }

  /** `extract_text_from_transcript`: the object's `str()` when no shape yields text;
      otherwise every chosen text in order, each at its offset, with one space after each
      but the last and nothing else. */
  function ExtractText(t: TranscriptObject): (r: string)
    ensures ChosenTexts(t).None? ==> r == t.repr
    ensures ChosenTexts(t).Some? ==> |r| + 1 == Offset(ChosenTexts(t).value, 1, |ChosenTexts(t).value|)
    ensures ChosenTexts(t).Some? ==> var ts := ChosenTexts(t).value;
      forall k :: 0 <= k < |ts| ==>
        Offset(ts, 1, k) + |ts[k]| <= |r| && r[Offset(ts, 1, k)..Offset(ts, 1, k) + |ts[k]|] == ts[k]
    ensures ChosenTexts(t).Some? ==> var ts := ChosenTexts(t).value;
      forall k :: 0 <= k < |ts| - 1 ==>
        Offset(ts, 1, k) + |ts[k]| + 1 <= |r| && r[Offset(ts, 1, k) + |ts[k]|..Offset(ts, 1, k) + |ts[k]| + 1] == " "
  {
    match ChosenTexts(t)
    case Some(ts) =>
      JoinLength(ts, " ");
      JoinParts(ts, " ");
      JoinSeps(ts, " ");
      Join(ts, " ")
    case None => t.repr
  }

  /** When no snippet text contains a space, splitting the joined text on spaces gives the
      snippet texts back. */
  lemma ExtractTextSplitsBack(t: TranscriptObject)
    requires ChosenTexts(t).Some?
    requires forall k :: 0 <= k < |ChosenTexts(t).value| ==> ' ' !in ChosenTexts(t).value[k]
    ensures SplitOn(ExtractText(t), ' ') == ChosenTexts(t).value
  {
    SplitJoin(ChosenTexts(t).value, ' ');
  }

  // ---------- fetching ----------

  /** One entry of `api.list(video_id)`: its language code when it has one, and what its
      `fetch()` returns (None when that raises). */
  datatype Listing = Listing(languageCode: Option<string>, fetched: Option<TranscriptObject>)

  /** The transcript service. `fetch(video_id, languages)` takes None for the service's
      own default; both calls give None when they raise. */
  datatype TranscriptApi = TranscriptApi(
    fetch: (string, Option<seq<string>>) -> Option<TranscriptObject>,
    list: string -> Option<seq<Listing>>)

  const EnglishOnly: Option<seq<string>> := Some(["en"])

  /** The language codes the list path prefers. */
  const PreferredCodes: seq<string> := ["en", "en-US", "en-GB"]

  predicate IsPreferred(l: Listing) {
    l.languageCode.Some? && l.languageCode.value in PreferredCodes
  }

  /** The listing the list path fetches: the first with a preferred code, else the first. */
  function PreferredIndex(ls: seq<Listing>): (i: nat)
    requires |ls| > 0
    ensures i < |ls|
    ensures forall k :: 0 <= k < i ==> !IsPreferred(ls[k])
    ensures IsPreferred(ls[i]) || (i == 0 && forall k :: 0 <= k < |ls| ==> !IsPreferred(ls[k]))
  {
    if IsPreferred(ls[0]) || |ls| == 1 then 0
    else
      var j := PreferredIndex(ls[1..]);
      if IsPreferred(ls[1..][j]) then j + 1 else 0
  }

  datatype Attempt = EnglishFetch | DefaultFetch | ListFetch

  /** What one attempt returns; None when it raises (for the list path: when listing
      raises, lists nothing, or the chosen transcript's fetch raises). */
  function AttemptResult(api: TranscriptApi, videoId: string, a: Attempt): Option<TranscriptObject> {
    match a
    case EnglishFetch => api.fetch(videoId, EnglishOnly)
    case DefaultFetch => api.fetch(videoId, None)
    case ListFetch =>
      match api.list(videoId)
      case None => None
      case Some(ls) => if ls == [] then None else ls[PreferredIndex(ls)].fetched
  }

  /** The attempts made, in order: each one only after the ones before it raised. */
  function Attempts(api: TranscriptApi, videoId: string): seq<Attempt> {
    if AttemptResult(api, videoId, EnglishFetch).Some? then [EnglishFetch]
    else if AttemptResult(api, videoId, DefaultFetch).Some? then [EnglishFetch, DefaultFetch]
    else [EnglishFetch, DefaultFetch, ListFetch]
  }

  datatype AcquireError = TranscriptUnavailable | EmptyTranscript

  /** The three nested `try` blocks of `load_and_enrich_documents`. */
  function FetchTranscript(api: TranscriptApi, videoId: string): Result<string, AcquireError> {
    match api.fetch(videoId, EnglishOnly)
    case Some(t) => Ok(ExtractText(t))
    case None =>
      match api.fetch(videoId, None)
      case Some(t) => Ok(ExtractText(t))
      case None =>
        match api.list(videoId)
        case None => Err(TranscriptUnavailable)
        case Some(ls) =>
          if ls == [] then Err(TranscriptUnavailable)
          else
            match ls[PreferredIndex(ls)].fetched
            case None => Err(TranscriptUnavailable)
            case Some(t) => Ok(ExtractText(t))
  }

  /** The fallback order: English first, the default fetch only after English failed, the
      list path only after both failed; the text comes from the first attempt that
      succeeds, and fetching fails only when all three do. */
  lemma FallbackOrder(api: TranscriptApi, videoId: string)
    ensures Attempts(api, videoId) <= [EnglishFetch, DefaultFetch, ListFetch]
    ensures DefaultFetch in Attempts(api, videoId) <==> api.fetch(videoId, EnglishOnly).None?
    ensures ListFetch in Attempts(api, videoId) <==>
      api.fetch(videoId, EnglishOnly).None? && api.fetch(videoId, None).None?
    ensures forall k :: 0 <= k < |Attempts(api, videoId)| - 1 ==>
      AttemptResult(api, videoId, Attempts(api, videoId)[k]).None?
    ensures var last := Attempts(api, videoId)[|Attempts(api, videoId)| - 1];
      match AttemptResult(api, videoId, last)
      case Some(t) => FetchTranscript(api, videoId) == Ok(ExtractText(t))
      case None => FetchTranscript(api, videoId) == Err(TranscriptUnavailable)
  {
  }

  /** The transcript the pipeline accepts: fetched, then refused when empty or only
      whitespace. */
  function AcquireTranscript(api: TranscriptApi, videoId: string): (r: Result<string, AcquireError>)
    ensures r.Ok? ==> !IsBlank(r.value) && FetchTranscript(api, videoId) == r
    ensures FetchTranscript(api, videoId).Err? ==> r == FetchTranscript(api, videoId)
    ensures FetchTranscript(api, videoId).Ok? && IsBlank(FetchTranscript(api, videoId).value) ==>
      r == Err(EmptyTranscript)
  {
    match FetchTranscript(api, videoId)
    case Err(e) => Err(e)
    case Ok(text) => if IsBlank(text) then Err(EmptyTranscript) else Ok(text)
  }
}

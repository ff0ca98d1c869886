/** `load_and_enrich_documents`: a video's transcript, recorded as the primary source,
    followed by one web-context block per strategy that enrichment kept. */
module Loader {
  import opened Wrappers
  import opened Text
  import opened OrderedDict
  import opened Config
  import opened Ledger
  import opened VideoId
  import opened Transcript
  import opened Enricher

  /** The ledger type of the transcript record. */
  const TranscriptSource: string := "transcript"

  const TranscriptHeader: string := "=== VIDEO TRANSCRIPT ===\n"

  /** Why a video could not be loaded. */
  datatype LoadError = BadUrl(urlError: UrlError) | NoTranscript(reason: AcquireError)

  /** The metadata dict; `config` stands for its `to_dict()` form. */
  datatype Metadata = Metadata(
    title: string,
    videoId: string,
    source: string,
    config: EnrichmentConfig,
    processingTimestamp: string,
    enrichmentSources: seq<string>)

  datatype Loaded = Loaded(documents: seq<string>, metadata: Metadata)

  /** The configuration used when none is given. */
  function ConfigOr(config: Option<EnrichmentConfig>): (c: EnrichmentConfig)
    ensures config.Some? ==> c == config.value
    ensures config.None? ==> c == PresetBalanced()
  {
    match config
    case Some(c) => c
    case None => PresetBalanced()
  }

  /** The identifier and the (non-blank) transcript of the video at `url`. */
  function Acquired(api: TranscriptApi, url: string): (r: Result<(string, string), LoadError>)
    ensures r.Ok? <==> ExtractVideoId(url).Ok? && AcquireTranscript(api, ExtractVideoId(url).value).Ok?
    ensures ExtractVideoId(url).Err? ==> r == Err(BadUrl(ExtractVideoId(url).error))
    ensures ExtractVideoId(url).Ok? && AcquireTranscript(api, ExtractVideoId(url).value).Err? ==>
      r == Err(NoTranscript(AcquireTranscript(api, ExtractVideoId(url).value).error))
    ensures r.Ok? ==>
      r.value.0 == ExtractVideoId(url).value && !IsBlank(r.value.1) && Ok(r.value.1) == FetchTranscript(api, r.value.0)
  {
    match ExtractVideoId(url)
    case Err(e) => Err(BadUrl(e))
    case Ok(videoId) =>
      match AcquireTranscript(api, videoId)
      case Err(e) => Err(NoTranscript(e))
      case Ok(text) => Ok((videoId, text))
  }

  // ---------- document layout ----------

  /** The block a strategy's data adds to the document. */
  function WebBlock(strategy: string, data: string): string {
    "\n\n=== WEB CONTEXT: " + Upper(strategy) + " ===\n" + data
  }

  /** `content_parts` once the blocks of `enriched` are appended. */
  function ContentParts(text: string, enriched: Dict<string, string>): (ps: seq<string>)
    ensures |ps| == |enriched| + 1 && ps[0] == TranscriptHeader + text
  {
    if enriched == [] then [TranscriptHeader + text]
    else
      var last := enriched[|enriched| - 1];
      ContentParts(text, enriched[..|enriched| - 1]) + [WebBlock(last.0, last.1)]
  }

  /** The document: the content parts joined by newlines. */
  function Document(text: string, enriched: Dict<string, string>): string {
    Join(ContentParts(text, enriched), "\n")
  }

  /** The web-context blocks of `enriched`, each after a newline, in key order. */
  function Blocks(enriched: Dict<string, string>): string {
    if enriched == [] then ""
    else
      var last := enriched[|enriched| - 1];
      Blocks(enriched[..|enriched| - 1]) + "\n" + WebBlock(last.0, last.1)
  }

  /** The document is the transcript header and text followed by one block per
      enriched strategy, in the dict's order. */
  lemma {:induction false} DocumentLayout(text: string, enriched: Dict<string, string>)
    ensures Document(text, enriched) == TranscriptHeader + text + Blocks(enriched)
  {
    if enriched != [] {
      var init, last := enriched[..|enriched| - 1], enriched[|enriched| - 1];
      var block := WebBlock(last.0, last.1);
      DocumentLayout(text, init);
      assert ContentParts(text, enriched) == ContentParts(text, init) + [block];
      JoinSnoc(ContentParts(text, init), block, "\n");
      assert Blocks(enriched) == Blocks(init) + "\n" + block;
      assert TranscriptHeader + text + Blocks(init) + ("\n" + block) ==
        TranscriptHeader + text + (Blocks(init) + "\n" + block);
    }
  }

  // ---------- what loading yields ----------

  /** What `load_and_enrich_documents` returns, given the title lookup `titleOf`, the
      search API key and backend, and the clock reading `now`. */
  function LoadResult(url: string, config: Option<EnrichmentConfig>, api: TranscriptApi,
                      titleOf: string -> string, apiKey: Option<string>, connect: Option<Search>,
                      now: string): Result<Loaded, LoadError>
  {
    match Acquired(api, url)
    case Err(e) => Err(e)
    case Ok((videoId, text)) =>
      var c := ConfigOr(config);
      var title := titleOf(videoId);
      var enriched := EnrichResult(c, SearchFor(c, apiKey, connect), title, text);
      Ok(Loaded([Document(text, enriched)], Metadata(title, videoId, url, c, now, Keys(enriched))))
  }

  /** The transcript record before it is flagged. */
  function TranscriptRecord(text: string, now: string): SourceContribution {
    SourceContribution(TranscriptSource, Preview(text), TranscriptRelevance, false, now)
  }

  /** The ledger's records after loading, starting from the records `prior`. */
  function LoadLedger(prior: seq<SourceContribution>, url: string, config: Option<EnrichmentConfig>,
                      api: TranscriptApi, titleOf: string -> string, apiKey: Option<string>,
                      connect: Option<Search>, now: string): seq<SourceContribution>
  {
    match Acquired(api, url)
    case Err(_) => prior
    case Ok((videoId, text)) =>
      var c := ConfigOr(config);
      var title := titleOf(videoId);
      var search := SearchFor(c, apiKey, connect);
      var enriched := EnrichResult(c, search, title, text);
      MarkedUsedAll(MarkedUsed(prior + [TranscriptRecord(text, now)], TranscriptSource) +
                    EnrichRecords(c, search, title, text, now), Keys(enriched))
  }

  /** A video that cannot be loaded leaves the ledger as it was: a bad URL, a missing
      transcript and a blank one are all refused before anything is recorded. */
  lemma LoadRefused(prior: seq<SourceContribution>, url: string, config: Option<EnrichmentConfig>,
                    api: TranscriptApi, titleOf: string -> string, apiKey: Option<string>,
                    connect: Option<Search>, now: string)
    requires LoadResult(url, config, api, titleOf, apiKey, connect, now).Err?
    ensures LoadLedger(prior, url, config, api, titleOf, apiKey, connect, now) == prior
    ensures var e := LoadResult(url, config, api, titleOf, apiKey, connect, now).error;
      (e.BadUrl? <==> ExtractVideoId(url).Err?) &&
      (e == NoTranscript(EmptyTranscript) ==> IsBlank(FetchTranscript(api, ExtractVideoId(url).value).value))
  {
  }

  /** A loaded video's document and metadata: one document, the transcript first, the
      blocks of the enriched strategies after it, and the enrichment sources exactly the
      known listed strategies that returned text (none when enrichment is disabled). */
  lemma LoadedDocument(url: string, config: Option<EnrichmentConfig>, api: TranscriptApi,
                       titleOf: string -> string, apiKey: Option<string>, connect: Option<Search>, now: string)
    requires LoadResult(url, config, api, titleOf, apiKey, connect, now).Ok?
    ensures var loaded := LoadResult(url, config, api, titleOf, apiKey, connect, now).value;
      var (videoId, text) := Acquired(api, url).value;
      var c := ConfigOr(config);
      var enriched := EnrichResult(c, SearchFor(c, apiKey, connect), titleOf(videoId), text);
      loaded.documents == [TranscriptHeader + text + Blocks(enriched)] &&
      !IsBlank(text) &&
      loaded.metadata.videoId == videoId && loaded.metadata.title == titleOf(videoId) &&
      loaded.metadata.source == url && loaded.metadata.config == c &&
      loaded.metadata.enrichmentSources == Keys(enriched) &&
      (!c.enabled ==> loaded.metadata.enrichmentSources == [] && loaded.documents == [TranscriptHeader + text]) &&
      (forall k :: k in loaded.metadata.enrichmentSources <==>
        c.enabled && SearchFor(c, apiKey, connect).Some? && k in c.strategies && IsKnownStrategy(k) &&
        StrategyText(c, SearchFor(c, apiKey, connect), k, titleOf(videoId), Topics.KeyTopics(text, Topics.DefaultMaxTopics)) != "")
  {
    var (videoId, text) := Acquired(api, url).value;
    var c := ConfigOr(config);
    var search := SearchFor(c, apiKey, connect);
    var enriched := EnrichResult(c, search, titleOf(videoId), text);
    DocumentLayout(text, enriched);
    EnrichFacts(c, search, titleOf(videoId), text, now);
  }

  /** The records loading adds after the transcript record have these traits. */
  predicate AddedRecord(r: SourceContribution, keys: seq<string>, now: string) {
    r.relevanceScore == SearchRelevance && r.timestamp == now && r.sourceType in keys &&
    r.sourceType != TranscriptSource
  }

  /** The ledger a load builds from `prior`, a transcript and enrichment `records`. */
  lemma {:induction false} LedgerShape(prior: seq<SourceContribution>, text: string, now: string,
                                       records: seq<SourceContribution>, keys: seq<string>)
    requires forall j :: 0 <= j < |records| ==> AddedRecord(records[j], keys, now)
    ensures var ledger := MarkedUsedAll(MarkedUsed(prior + [TranscriptRecord(text, now)], TranscriptSource) + records, keys);
      |ledger| == |prior| + 1 + |records| &&
      ledger[|prior|] == SourceContribution(TranscriptSource, Preview(text), TranscriptRelevance, true, now) &&
      (forall i :: 0 <= i < |prior| ==>
        ledger[i].(usedInContext := prior[i].usedInContext) == prior[i] &&
        ledger[i].usedInContext == (prior[i].usedInContext || prior[i].sourceType == TranscriptSource ||
                                    prior[i].sourceType in keys)) &&
      (forall i :: |prior| < i < |ledger| ==> ledger[i].usedInContext && AddedRecord(ledger[i], keys, now))
  {
    var head := MarkedUsed(prior + [TranscriptRecord(text, now)], TranscriptSource);
    MarkUsedAllAppend(head, records, keys);
    var marked, markedRecords := MarkedUsedAll(head, keys), MarkedUsedAll(records, keys);
    var ledger := marked + markedRecords;
    forall i | 0 <= i < |prior|
      ensures ledger[i].(usedInContext := prior[i].usedInContext) == prior[i] &&
        ledger[i].usedInContext == (prior[i].usedInContext || prior[i].sourceType == TranscriptSource ||
                                    prior[i].sourceType in keys)
    {
      assert ledger[i] == marked[i];
      assert (prior + [TranscriptRecord(text, now)])[i] == prior[i];
    }
    assert ledger[|prior|] == marked[|prior|];
    assert (prior + [TranscriptRecord(text, now)])[|prior|] == TranscriptRecord(text, now);
    forall i | |prior| < i < |ledger|
      ensures ledger[i].usedInContext && AddedRecord(ledger[i], keys, now)
    {
      assert ledger[i] == markedRecords[i - |prior| - 1];
      assert AddedRecord(records[i - |prior| - 1], keys, now);
    }
  }

  /** A loaded video's ledger: the earlier records keep their place and content (some
      newly flagged), then comes the transcript record at relevance 1.0, flagged, then
      the enrichment records at relevance 0.8, each of an enriched strategy and
      flagged. */
  lemma LoadedLedger(prior: seq<SourceContribution>, url: string, config: Option<EnrichmentConfig>,
                     api: TranscriptApi, titleOf: string -> string, apiKey: Option<string>,
                     connect: Option<Search>, now: string)
    requires LoadResult(url, config, api, titleOf, apiKey, connect, now).Ok?
    ensures var loaded := LoadResult(url, config, api, titleOf, apiKey, connect, now).value;
      var text := Acquired(api, url).value.1;
      var ledger := LoadLedger(prior, url, config, api, titleOf, apiKey, connect, now);
      var used := loaded.metadata.enrichmentSources;
      |ledger| > |prior| &&
      ledger[|prior|] == SourceContribution(TranscriptSource, Preview(text), TranscriptRelevance, true, now) &&
      (forall i :: 0 <= i < |prior| ==>
        ledger[i].(usedInContext := prior[i].usedInContext) == prior[i] &&
        ledger[i].usedInContext == (prior[i].usedInContext || prior[i].sourceType == TranscriptSource ||
                                    prior[i].sourceType in used)) &&
      (forall i :: |prior| < i < |ledger| ==> ledger[i].usedInContext && AddedRecord(ledger[i], used, now)) &&
      (!ConfigOr(config).trackSources ==> |ledger| == |prior| + 1)
  {
    var (videoId, text) := Acquired(api, url).value;
    var c := ConfigOr(config);
    var title := titleOf(videoId);
    var search := SearchFor(c, apiKey, connect);
    var enriched := EnrichResult(c, search, title, text);
    var records := EnrichRecords(c, search, title, text, now);
    EnrichFacts(c, search, title, text, now);
    forall j | 0 <= j < |records| ensures AddedRecord(records[j], Keys(enriched), now) {
      assert EnrichmentRecord(c, c.strategies, now, records[j]);
    }
    LedgerShape(prior, text, now, records, Keys(enriched));
  }

  /** On a fresh ledger, loading leaves exactly one transcript record, first, and every
      record flagged as used. */
  lemma FreshLedger(url: string, config: Option<EnrichmentConfig>, api: TranscriptApi,
                    titleOf: string -> string, apiKey: Option<string>, connect: Option<Search>, now: string)
    requires LoadResult(url, config, api, titleOf, apiKey, connect, now).Ok?
    ensures var ledger := LoadLedger([], url, config, api, titleOf, apiKey, connect, now);
      |ledger| > 0 && ledger[0].sourceType == TranscriptSource &&
      ledger[0].relevanceScore == TranscriptRelevance &&
      (forall i :: 0 < i < |ledger| ==> ledger[i].sourceType != TranscriptSource) &&
      CountUsed(ledger) == |ledger|
  {
    LoadedLedger([], url, config, api, titleOf, apiKey, connect, now);
    CountUsedBounds(LoadLedger([], url, config, api, titleOf, apiKey, connect, now));
  }

  // ---------- the loading procedure ----------

  /** The records of `t`, or none when there is no tracker. */
  function PriorSources(t: SourceTracker?): seq<SourceContribution>
    reads t
  {
    if t == null then [] else t.sources
  }

  function PriorHistory(t: SourceTracker?): seq<QueryLogEntry>
    reads t
  {
    if t == null then [] else t.queryHistory
  }

  /** `load_and_enrich_documents(url, config, source_tracker)`. The tracker is the given
      one, or a fresh one when none is given; on failure `outcome` is the error that
      Python raises. */
  method LoadAndEnrichDocuments(url: string, config: Option<EnrichmentConfig>, sourceTracker: SourceTracker?,
                                api: TranscriptApi, titleOf: string -> string, apiKey: Option<string>,
                                connect: Option<Search>, now: string)
    returns (outcome: Result<Loaded, LoadError>, tracker: SourceTracker)
    modifies sourceTracker
    ensures sourceTracker != null ==> tracker == sourceTracker
    ensures sourceTracker == null ==> fresh(tracker)
    ensures outcome == LoadResult(url, config, api, titleOf, apiKey, connect, now)
    ensures tracker.sources == LoadLedger(old(PriorSources(sourceTracker)), url, config, api, titleOf, apiKey, connect, now)
    ensures tracker.queryHistory == old(PriorHistory(sourceTracker))
  {
    var c := ConfigOr(config);
    if sourceTracker == null {
      tracker := new SourceTracker();
    } else {
      tracker := sourceTracker;
    }
    ghost var prior := tracker.sources;
    var acquired := Acquired(api, url);
    if acquired.Err? {
      outcome := Err(acquired.error);
      return;
    }
    var (videoId, text) := acquired.value;

    tracker.AddSource(TranscriptSource, text, TranscriptRelevance, now);
    tracker.MarkUsed(TranscriptSource);
    var title := titleOf(videoId);
    ghost var search := SearchFor(c, apiKey, connect);
    ghost var base := tracker.sources + EnrichRecords(c, search, title, text, now);

    var parts := [TranscriptHeader + text];
    var enriched: Dict<string, string> := [];
    if c.enabled {
      var enricher := new ContentEnricher(c, tracker, apiKey, connect);
      enriched := enricher.Enrich(title, text, now);
      assert tracker.sources == base;
      parts := AppendWebContext(tracker, text, enriched);
    } else {
      assert base == tracker.sources + [];
    }
    assert enriched == EnrichResult(c, search, title, text);
    outcome := Ok(Loaded([Join(parts, "\n")], Metadata(title, videoId, url, c, now, Keys(enriched))));
  }

  /** The loop over `enriched_data.items()`: a block per strategy, and each strategy's
      records flagged as used. */
  method AppendWebContext(tracker: SourceTracker, text: string, enriched: Dict<string, string>)
    returns (parts: seq<string>)
    modifies tracker
    ensures parts == ContentParts(text, enriched)
    ensures tracker.sources == MarkedUsedAll(old(tracker.sources), Keys(enriched))
    ensures tracker.queryHistory == old(tracker.queryHistory)
  {
    parts := [TranscriptHeader + text];
    var i := 0;
    while i < |enriched|
      invariant 0 <= i <= |enriched|
      invariant parts == ContentParts(text, enriched[..i])
      invariant tracker.sources == MarkedUsedAll(old(tracker.sources), Keys(enriched[..i]))
      invariant tracker.queryHistory == old(tracker.queryHistory)
    {
      var (strategy, data) := enriched[i];
      WebContextStep(text, old(tracker.sources), enriched, i);
      parts := parts + [WebBlock(strategy, data)];
      tracker.MarkUsed(strategy);
      i := i + 1;
    }
    assert enriched[..i] == enriched;
  }

  /** One turn of the web-context loop, as the specification functions see it. */
  lemma WebContextStep(text: string, base: seq<SourceContribution>, enriched: Dict<string, string>, i: nat)
    requires i < |enriched|
    ensures ContentParts(text, enriched[..i + 1]) ==
      ContentParts(text, enriched[..i]) + [WebBlock(enriched[i].0, enriched[i].1)]
    ensures MarkedUsedAll(base, Keys(enriched[..i + 1])) == MarkedUsed(MarkedUsedAll(base, Keys(enriched[..i])), enriched[i].0)
  {
    assert enriched[..i + 1][..i] == enriched[..i];
    assert Keys(enriched[..i + 1])[..i] == Keys(enriched[..i]);
  }
}

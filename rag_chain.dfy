/** `TrackedRAGChain`'s bookkeeping: the enrichment note of its prompt, and the query
    log entry each answer leaves in the ledger. The model behind the chain is a
    parameter: the reply it gives, or None when the call raises. */
module RagChain {
  import opened Wrappers
  import opened Text
  import opened Config
  import opened Ledger
  import opened Enricher
  import opened Loader

  const NotePrefix: string := "\n\nNOTE: Context includes video transcript + web enrichment ("

  const NoteSuffix: string := ")."

  /** The note the prompt carries about web enrichment: the enrichment sources, comma
      separated, when the configuration is enabled and there are any; nothing otherwise. */
  function EnrichmentNote(meta: Metadata): (note: string)
    ensures note == "" || note == NotePrefix + Join(meta.enrichmentSources, ", ") + NoteSuffix
    ensures note != "" <==> meta.config.enabled && Join(meta.enrichmentSources, ", ") != ""
  {
    var strategies := Join(meta.enrichmentSources, ", ");
    if meta.config.enabled && strategies != "" then NotePrefix + strategies + NoteSuffix else ""
  }

  /** With source names that are not empty, the note is shown exactly when enrichment is
      enabled and some source was used. */
  lemma NoteShown(meta: Metadata)
    requires forall k :: 0 <= k < |meta.enrichmentSources| ==> meta.enrichmentSources[k] != ""
    ensures EnrichmentNote(meta) != "" <==> meta.config.enabled && meta.enrichmentSources != []
  {
    JoinEmpty(meta.enrichmentSources, ", ");
  }

  /** For a loaded video the note is shown exactly when enrichment is enabled and kept
      some strategy's text. */
  lemma LoadedNote(url: string, config: Option<EnrichmentConfig>, api: Transcript.TranscriptApi,
                   titleOf: string -> string, apiKey: Option<string>, connect: Option<Search>, now: string)
    requires LoadResult(url, config, api, titleOf, apiKey, connect, now).Ok?
    ensures var meta := LoadResult(url, config, api, titleOf, apiKey, connect, now).value.metadata;
      EnrichmentNote(meta) != "" <==> meta.config.enabled && meta.enrichmentSources != []
  {
    var meta := LoadResult(url, config, api, titleOf, apiKey, connect, now).value.metadata;
    LoadedDocument(url, config, api, titleOf, apiKey, connect, now);
    forall k | 0 <= k < |meta.enrichmentSources| ensures meta.enrichmentSources[k] != "" {
      assert IsKnownStrategy(meta.enrichmentSources[k]);
    }
    NoteShown(meta);
  }

  /** The sources `invoke` logs: always the transcript, then the enrichment sources. */
  function SourcesUsed(meta: Metadata): (used: seq<string>)
    ensures |used| == |meta.enrichmentSources| + 1
    ensures used[0] == TranscriptSource && used[1..] == meta.enrichmentSources
  {
    if meta.enrichmentSources != [] then [TranscriptSource] + meta.enrichmentSources else [TranscriptSource]
  }

  /** After a load, every record of a source `invoke` names is flagged as used. */
  lemma LoggedSourcesAreUsed(prior: seq<SourceContribution>, url: string, config: Option<EnrichmentConfig>,
                             api: Transcript.TranscriptApi, titleOf: string -> string, apiKey: Option<string>,
                             connect: Option<Search>, now: string)
    requires LoadResult(url, config, api, titleOf, apiKey, connect, now).Ok?
    ensures var meta := LoadResult(url, config, api, titleOf, apiKey, connect, now).value.metadata;
      var ledger := LoadLedger(prior, url, config, api, titleOf, apiKey, connect, now);
      forall i :: 0 <= i < |ledger| && ledger[i].sourceType in SourcesUsed(meta) ==> ledger[i].usedInContext
  {
    var meta := LoadResult(url, config, api, titleOf, apiKey, connect, now).value.metadata;
    var ledger := LoadLedger(prior, url, config, api, titleOf, apiKey, connect, now);
    LoadedLedger(prior, url, config, api, titleOf, apiKey, connect, now);
    forall i | 0 <= i < |ledger| && ledger[i].sourceType in SourcesUsed(meta) ensures ledger[i].usedInContext {
      if i < |prior| {
        assert ledger[i].sourceType == prior[i].sourceType;
        var used := SourcesUsed(meta);
        var j :| 0 <= j < |used| && used[j] == ledger[i].sourceType;
        if j > 0 {
          assert used[j] == meta.enrichmentSources[j - 1];
        }
      }
    }
  }

  /** Why a question got no answer. */
  datatype ChainError = ChainFailed

  /** What `invoke_with_sources` returns. */
  datatype SourcedAnswer = SourcedAnswer(answer: string, sourcesSummary: Summary, metadata: Metadata)

  class TrackedRAGChain {
    const metadata: Metadata
    const tracker: SourceTracker
    const enrichmentNote: string

    constructor (metadata: Metadata, sourceTracker: SourceTracker)
      ensures this.metadata == metadata && tracker == sourceTracker
      ensures enrichmentNote == EnrichmentNote(metadata)
    {
      this.metadata := metadata;
      tracker := sourceTracker;
      enrichmentNote := EnrichmentNote(metadata);
    }

    /** `invoke(question)`: an answer is logged with the sources used; a call that
        raises logs nothing. */
    method Invoke(question: string, reply: Option<string>, now: string) returns (answer: Result<string, ChainError>)
      modifies tracker
      ensures reply.None? ==> answer == Err(ChainFailed) && tracker.queryHistory == old(tracker.queryHistory)
      ensures reply.Some? ==> answer == Ok(reply.value)
      ensures reply.Some? ==>
        tracker.queryHistory == old(tracker.queryHistory) +
          [QueryLogEntry(now, question, PyPrefix(reply.value, PreviewLength), SourcesUsed(metadata))]
      ensures tracker.sources == old(tracker.sources)
    {
      if reply.None? {
        return Err(ChainFailed);
      }
      var sourcesUsed := [TranscriptSource];
      if metadata.enrichmentSources != [] {
        sourcesUsed := sourcesUsed + metadata.enrichmentSources;
      }
      tracker.LogQuery(question, reply.value, sourcesUsed, now);
      answer := Ok(reply.value);
    }

    /** `invoke_with_sources(question)`: the answer with the ledger's summary and the
        metadata. */
    method InvokeWithSources(question: string, reply: Option<string>, now: string)
      returns (result: Result<SourcedAnswer, ChainError>)
      modifies tracker
      ensures reply.None? ==> result == Err(ChainFailed) && tracker.queryHistory == old(tracker.queryHistory)
      ensures reply.Some? ==> result == Ok(SourcedAnswer(reply.value, SummaryOf(tracker.sources), metadata))
      ensures reply.Some? ==>
        tracker.queryHistory == old(tracker.queryHistory) +
          [QueryLogEntry(now, question, PyPrefix(reply.value, PreviewLength), SourcesUsed(metadata))]
      ensures tracker.sources == old(tracker.sources)
    {
      var answer := Invoke(question, reply, now);
      if answer.Err? {
        return Err(answer.error);
      }
      var summary := tracker.GetSummary();
      result := Ok(SourcedAnswer(answer.value, summary, metadata));
    }
  }
}

# YouTube RAG pipeline: source ledger, enrichment and document assembly

This project models the bookkeeping core of `src/rag_pipeline.py`, a pipeline that
turns a YouTube video into a question-answering context. The pipeline:

- resolves the video identifier from its URL;
- fetches the transcript with three ordered fallbacks and rejects blank text;
- extracts the most frequent non-common words as key topics;
- optionally runs up to four web-search strategies (background, discussions,
  academic, current) built from the topics or the title;
- assembles one document: a `=== VIDEO TRANSCRIPT ===` header, then one
  `=== WEB CONTEXT: <STRATEGY> ===` block per strategy that returned text;
- records every source in a ledger (`SourceTracker`) and flags the sources that
  went into the context;
- logs, for each answered question, which sources were used.

The model has one module per concern:

| file | module | models |
|---|---|---|
| `wrappers.dfy` | `Wrappers` | `Option` and `Result` |
| `text.dfy` | `Text` | the Python string operations used: `in`, `split`, slicing, `join`, `strip`, `lower`, `upper` |
| `ordered_dict.dfy` | `OrderedDict` | Python dicts as association lists that keep insertion order; counters |
| `config.dfy` | `Config` | `EnrichmentConfig` and its five presets |
| `ledger.dfy` | `Ledger` | `SourceContribution` and the `SourceTracker` class |
| `video_id.dfy` | `VideoId` | `extract_video_id` |
| `transcript.dfy` | `Transcript` | `extract_text_from_transcript` and the three fetch attempts |
| `topics.dfy` | `Topics` | `extract_key_topics` |
| `enricher.dfy` | `Enricher` | `ContentEnricher`: `_safe_search`, the four strategies, `enrich` |
| `loader.dfy` | `Loader` | `load_and_enrich_documents` |
| `rag_chain.dfy` | `RagChain` | `TrackedRAGChain`: the enrichment note, `invoke`, `invoke_with_sources` |

The form follows the source:

- **Mutable objects are classes.** `SourceTracker`, `ContentEnricher` and
  `TrackedRAGChain` update their state in place, so they are classes with
  `modifies` clauses.
- **Loops are methods.** The source's loops (`mark_used`, `get_summary`,
  the word count, the background searches, `enrich`, the web-context
  assembly) are methods with loop invariants.
- **Each method is proved against a specification function.** Examples are
  `MarkedUsed`, `SummaryOf`, `KeyTopics`, `EnrichResult`, `LoadResult` and
  `LoadLedger`. The properties the source promises are lemmas about those
  functions.

External services are parameters:

- **Search backend**: a function `query -> Option<string>`, where None means the
  call raised. It is present only when `connect` gives one, modelling the
  construction of the search wrapper. The `SERPER_API_KEY` environment lookup is
  the parameter `apiKey`.
- **Transcript service**: a datatype of two functions, `fetch(videoId,
  languages)` and `list(videoId)`. A result of None means the call raised.
- **Title lookup**: `get_video_title_from_youtube` is the function `titleOf`.
- **Language model**: its answer is an `Option<string>` given to `Invoke`; None
  means the chain raised.
- **Clock**: `datetime.now()` is a `now: string` parameter, one reading per call.

Relevance scores are kept in hundredths: 0.0, 0.8 and 1.0 are 0, 80 and 100.

Where the code behaves in a way a reader might not expect, the model follows the code:

- **Strategy order.** `enrich` runs the strategies in the order
  `config.strategies` lists them (`src/rag_pipeline.py:320`), not in a fixed
  order.
  - Names outside the four known strategies are skipped.
  - A name listed twice runs twice, and its key keeps the place of its first
    insertion. In the source the later text replaces the earlier one. In the
    model both runs send the same query and get the same answer, so the text
    is the same (see `Enricher.Search` under "## Left out").
- **Empty identifiers.** A `youtu.be/` URL with nothing after the host yields
  the empty identifier rather than an error. So does an embed URL with nothing
  after `youtube.com/embed/`, or with only a query there, such as
  `https://www.youtube.com/embed/?t=1`.
- **Fragments.** Only the watch shape drops a `#` fragment, through `urlparse`.
  The short shape keeps everything up to the first `?` or `&`, and the embed
  shape everything up to the first `?`.
- **Strategy names.** The configuration may list any strategy names. The
  presets list only known ones, each once (`Config.PresetFacts`).

## Model

| member | source | states |
|---|---|---|
| Config.MakeConfig | src/rag_pipeline.py:20-30 | A missing strategy list becomes `['background', 'discussions']`. A given list and the other fields are kept as passed. |
| Config.PresetFacts | src/rag_pipeline.py:39-62 | Each of the five presets lists only known strategies, none twice, keeps 1000 characters per search and tracks sources. A preset is enabled exactly when it lists a strategy. `transcript_only` is disabled with no strategies. The comprehensive preset lists all four strategies in order. The default configuration equals the balanced preset. |
| Ledger.Preview | src/rag_pipeline.py:86-88 | Content of at most 200 characters is stored verbatim. Longer content is stored as its first 200 characters followed by `...`, 203 characters in all. |
| Ledger.PreviewIdempotent | src/rag_pipeline.py:88 | Taking the preview of a preview changes nothing. |
| Ledger.MarkedUsed | src/rag_pipeline.py:96-100 | No record is added or removed. A record is flagged afterwards exactly when it was flagged before or has the marked type. Every other field of every record is unchanged. |
| Ledger.MarkUsedIdempotent | src/rag_pipeline.py:96-100 | Marking a type twice gives the same ledger as marking it once. |
| Ledger.MarkUsedCommutes | src/rag_pipeline.py:96-100 | Marking two types gives the same ledger in either order. |
| Ledger.MarkUsedAppend | src/rag_pipeline.py:96-100 | Marking acts record by record: marking a concatenation marks each part. |
| Ledger.MarkedUsedAll | src/rag_pipeline.py:451-453 | After marking each type of a list in turn, a record is flagged exactly when it was flagged before or its type is in the list. No record is added or removed, and no other field changes. |
| Ledger.MarkUsedAllAppend | src/rag_pipeline.py:451-453 | Marking a list of types also acts record by record. |
| Ledger.CountUsedBounds | src/rag_pipeline.py:104-105 | The used count is at most the number of records. It equals that number exactly when every record is flagged, and is zero exactly when none is. |
| Ledger.SummaryCounts | src/rag_pipeline.py:102-116 | `total_sources` is the number of records, and `used_sources` is at most that. In `sources_by_type` each type appears once, with the number of records of that type, and the values sum to the total. Its keys are exactly the record types. |
| Ledger.MarkUsedCountsUp | src/rag_pipeline.py:96-105 | Marking never lowers the used count. |
| Ledger.SourceTracker.constructor | src/rag_pipeline.py:82-84 | A new ledger has no records and no log entries. |
| Ledger.SourceTracker.AddSource | src/rag_pipeline.py:86-94 | Appends exactly one unflagged record with the given type, relevance and timestamp, holding the content's preview. Earlier records and the log are unchanged. |
| Ledger.SourceTracker.MarkUsed | src/rag_pipeline.py:96-100 | The in-place flag loop leaves the records equal to `MarkedUsed` of the old records. The log is unchanged. |
| Ledger.SourceTracker.GetSummary | src/rag_pipeline.py:102-116 | Its two counting loops produce `SummaryOf` the records, whose counts `SummaryCounts` characterises. |
| Ledger.SourceTracker.LogQuery | src/rag_pipeline.py:118-125 | Appends exactly one log entry, whose answer preview is the answer's first 200 characters with no ellipsis. The records are unchanged. |
| OrderedDict.Put | src/rag_pipeline.py:323-324 | After `d[k] = v`, `k` maps to `v` and every other key keeps its value. An existing key keeps its place; a new key goes last. Keys stay distinct. |
| OrderedDict.Bump | src/rag_pipeline.py:206-208 | After `d[k] = d.get(k, 0) + 1`, the count of `k` goes up by one and every other count is unchanged. The values sum to one more than before, and a new key goes last. |
| OrderedDict.Tally | src/rag_pipeline.py:205-208 | Counting words from `{}` gives distinct keys, exactly the words seen. Each count is that word's number of occurrences, and the counts sum to the number of words. |
| OrderedDict.TallyOrder | src/rag_pipeline.py:205-208 | The counter's keys are ordered by the first occurrence of each word (both directions). |
| VideoId.FirstValue | src/rag_pipeline.py:150 | A value is found exactly when some `&`-separated field is `v=` followed by a non-empty value, as `parse_qs` drops blank values. It is then the value of the first such field. |
| VideoId.ExtractVideoId | src/rag_pipeline.py:143-157 | A URL containing `youtu.be/` always succeeds. Its identifier is the longest start of the text after the first `youtu.be/` (up to the next `youtu.be/`) that holds no `?` or `&`. Otherwise a URL containing `youtube.com/watch` succeeds exactly when its query has a kept `v` field, and the identifier is that field's value. Otherwise it succeeds exactly when it contains `youtube.com/embed/`. The identifier is then the longest `?`-free start of the text after it. Every other URL is refused. |
| VideoId.ShortUrlRoundTrip | src/rag_pipeline.py:146-147 | `https://youtu.be/<id><query>` yields `<id>` for every identifier and every query led by `?` or `&`. |
| VideoId.ShortUrlExample | src/rag_pipeline.py:146-147 | `https://youtu.be/dQw4w9WgXcQ?t=5` yields `dQw4w9WgXcQ`. |
| VideoId.ShortUrlAmpersandExample | src/rag_pipeline.py:146-147 | `https://youtu.be/dQw4w9WgXcQ&t=5` yields `dQw4w9WgXcQ`: the short shape is also cut at `&`. |
| VideoId.WatchQueryRoundTrip | src/rag_pipeline.py:148-152 | `https://www.youtube.com/watch?<query>`, with no `/` or `#` in the query, succeeds exactly when the query has a kept `v` field, and yields its first kept value. |
| VideoId.WatchFieldsRoundTrip | src/rag_pipeline.py:148-152 | For a query of `&`-joined fields, the watch URL yields the value of the first field kept for `v`, whatever fields come before or after it. It is refused when no field is kept. |
| VideoId.WatchFieldsExample | src/rag_pipeline.py:148-152 | `https://www.youtube.com/watch?feature=share&v=dQw4w9WgXcQ&t=42s` yields `dQw4w9WgXcQ`. |
| VideoId.WatchUrlRoundTrip | src/rag_pipeline.py:148-152 | `https://www.youtube.com/watch?v=<id>` yields `<id>` for every non-empty identifier. |
| VideoId.EmptyWatchIdRefused | src/rag_pipeline.py:148-155 | A watch URL with an empty `v` is refused. |
| VideoId.EmbedUrlRoundTrip | src/rag_pipeline.py:153-154 | `https://www.youtube.com/embed/<id><query>` yields `<id>` for every identifier and query tail. |
| Transcript.Texts | src/rag_pipeline.py:164 | One entry gives its text, or nothing when it has none. When every entry has a text, the result is exactly those texts. The result is empty exactly when no entry has one. |
| Transcript.TextsAppend | src/rag_pipeline.py:164 | The texts of two runs of entries are those of the first run followed by those of the second. With `Texts` on one entry, this fixes the result as the texts of the entries that have one, in order. |
| Transcript.ChosenTexts | src/rag_pipeline.py:161-171 | A snippet list that yields any text gives the texts used. Otherwise iteration gives them when it yields any. There are none exactly when neither shape yields text, and chosen texts are never empty. |
| Transcript.ExtractText | src/rag_pipeline.py:159-175 | When neither shape yields text, the result is the object's `str()`. Otherwise every chosen text appears at its offset, in order. One space follows every text but the last, and the length is the texts' lengths plus one space between each two, so nothing else is added. |
| Transcript.ExtractTextSplitsBack | src/rag_pipeline.py:164-171 | When no chosen text contains a space, splitting the result on spaces gives the texts back. |
| Transcript.PreferredIndex | src/rag_pipeline.py:391-401 | The list path takes the first transcript with code en, en-US or en-GB. When there is none, it takes the first transcript. |
| Transcript.FallbackOrder | src/rag_pipeline.py:359-419 | The attempts are English, then default, then list, each only after the earlier ones raised. The default fetch runs exactly when the English fetch raised. The list path runs exactly when both fetches raised. The text comes from the last attempt made, and fetching fails only when all three raise. |
| Transcript.AcquireTranscript | src/rag_pipeline.py:421-423 | An accepted transcript is the fetched text and is not blank. A fetch failure is passed on. Fetched text that is empty or only whitespace is refused as empty. |
| Topics.WordsShape | src/rag_pipeline.py:203 | Every match of the word pattern is four or more ASCII letters, and lower case when the text has no upper-case letters. |
| Topics.WordFound | src/rag_pipeline.py:203 | A word between non-word characters is found exactly there: the tokens of `a + w + b` are those of `a`, then `w`, then those of `b`. |
| Topics.TokensShape | src/rag_pipeline.py:203 | Every token of the lower-cased transcript is four or more lower-case ASCII letters. |
| Topics.Without | src/rag_pipeline.py:206-207 | Dropping the common words keeps exactly the other words, each with its number of occurrences. |
| Topics.WithoutOrder | src/rag_pipeline.py:206-208 | Dropping words keeps the first-occurrence order of the remaining words. |
| Topics.InsertByCount | src/rag_pipeline.py:210 | Inserting into the sorted list adds exactly the inserted item. |
| Topics.SortByCount | src/rag_pipeline.py:210 | Sorting is a permutation of the items. |
| Topics.SortChain | src/rag_pipeline.py:210 | The sort is descending by count and stable: equal counts keep their dict order. |
| Topics.ExtractKeyTopics | src/rag_pipeline.py:193-211 | The counting loop and the sort compute `KeyTopics`, which the following lemmas characterise. |
| Topics.TopicsAreCandidates | src/rag_pipeline.py:193-211 | Every topic is a token of the transcript and not a common word. |
| Topics.TopicsInOrder | src/rag_pipeline.py:193-211 | The topics are distinct and ordered by non-increasing frequency, with ties in first-occurrence order. |
| Topics.TopicsBeatTheRest | src/rag_pipeline.py:193-211 | Every candidate word left out ranks behind every topic. |
| Topics.TopicsCount | src/rag_pipeline.py:193-211 | There are at most `max_topics` topics, and fewer only when every candidate is a topic. |
| Topics.KeyTopicsRanked | src/rag_pipeline.py:193-211 | The topics are the top `max_topics` candidates, best first. |
| Topics.TopicShape | src/rag_pipeline.py:193-211 | Every topic is four or more lower-case ASCII letters. |
| Enricher.Searched | src/rag_pipeline.py:236-252 | The result is empty without a backend or when the call raises. Otherwise it is the backend's result cut as `results[:max_results_per_strategy]` cuts it: a prefix of length `min(max, len)` for a non-negative limit, and `max(0, len + max)` for a negative one. |
| Enricher.Tracked | src/rag_pipeline.py:246-247 | A record is added exactly when source tracking is on and the cut result is non-empty. |
| Enricher.BackgroundTopics | src/rag_pipeline.py:262 | Background covers the first two topics, or all of them when there are fewer. |
| Enricher.BackgroundQueries | src/rag_pipeline.py:262-263 | One `<topic> overview explanation` query per covered topic, in order. |
| Enricher.BackgroundParts | src/rag_pipeline.py:262-267 | There is at most one labelled part per covered topic. One topic gives `Background on '<topic>':` and its result when the search gave text, and nothing otherwise. |
| Enricher.BackgroundPartsAppend | src/rag_pipeline.py:262-267 | The parts of two runs of topics are those of the first run followed by those of the second, so parts follow topic order. |
| Enricher.BackgroundPartsLabelled | src/rag_pipeline.py:262-267 | Every part is the labelled, non-empty search result of one of the covered topics. |
| Enricher.BackgroundPartsNonEmpty | src/rag_pipeline.py:262-267 | Every labelled part is non-empty. |
| Enricher.BackgroundPartFound | src/rag_pipeline.py:262-267 | A covered topic whose search gave text contributes its own labelled part. |
| Enricher.BackgroundHasText | src/rag_pipeline.py:262-267 | When a covered topic's search gave text, the joined background text is non-empty. |
| Enricher.StrategySearchCount | src/rag_pipeline.py:254-296 | Background issues at most two searches, one per covered topic. Every other strategy issues at most one. A strategy that is not listed, has no backend or is unknown issues none. |
| Enricher.RecordsShape | src/rag_pipeline.py:236-252 | Every record a run of searches adds is the unflagged relevance-0.8 record of one non-empty result. There is at most one record per search, and none without source tracking. |
| Enricher.StrategyRecordsHaveText | src/rag_pipeline.py:246-267 | Every record a strategy adds carries its name. A strategy that adds a record returns non-empty text. |
| Enricher.EnrichKeys | src/rag_pipeline.py:320-324 | The keys are exactly the known listed names whose text is non-empty, each once, with that text. |
| Enricher.EnrichOrder | src/rag_pipeline.py:310-324 | The keys are ordered by the first appearance of their names in the strategy list (both directions). |
| Enricher.EnrichRecordsShape | src/rag_pipeline.py:246-247 | Every record enrichment adds has relevance 0.8, is unflagged, has the call's timestamp, and is typed by a known strategy the configuration lists. Without source tracking there are none. |
| Enricher.RecordedKeys | src/rag_pipeline.py:320-324 | Every record enrichment adds is typed by a strategy that ended up among the result's keys. |
| Enricher.EnrichFacts | src/rag_pipeline.py:298-327 | `enrich` returns `{}`, records nothing and searches nothing when disabled or without a backend. Otherwise its keys are exactly the known listed strategies with non-empty text. All its records are enrichment records of strategies among the keys. |
| Enricher.SearchFor | src/rag_pipeline.py:218-234 | A backend exists only when enrichment is enabled and the API key is set and non-empty. In that case it is always the one constructed, which is none when construction fails. |
| Enricher.ContentEnricher.constructor | src/rag_pipeline.py:218-234 | Keeps the given tracker or starts an empty one. The backend is `SearchFor` of the configuration and the key. |
| Enricher.ContentEnricher.SafeSearch | src/rag_pipeline.py:236-252 | Returns `Searched` and sends the query exactly when there is a backend. It appends exactly the `Tracked` record, and the log is unchanged. |
| Enricher.ContentEnricher.BackgroundContext | src/rag_pipeline.py:254-267 | Its loop returns the strategy's text and sends its queries. It appends exactly its records. |
| Enricher.ContentEnricher.RelatedDiscussions | src/rag_pipeline.py:269-276 | Returns the strategy's text, sends its query and appends exactly its records. |
| Enricher.ContentEnricher.AcademicContext | src/rag_pipeline.py:278-286 | Returns the strategy's text, sends its query and appends exactly its records. |
| Enricher.ContentEnricher.CurrentInfo | src/rag_pipeline.py:288-296 | Returns the strategy's text, sends its query and appends exactly its records. |
| Enricher.ContentEnricher.RunStrategy | src/rag_pipeline.py:313-322 | Dispatches a known name to its strategy. |
| Enricher.ContentEnricher.Enrich | src/rag_pipeline.py:298-327 | Its loop over `config.strategies` returns `EnrichResult`. It sends exactly `EnrichQueries` and appends exactly `EnrichRecords`, whose properties `EnrichFacts` states. |
| Loader.ConfigOr | src/rag_pipeline.py:344-345 | With no configuration, the balanced preset is used. |
| Loader.Acquired | src/rag_pipeline.py:350-423 | Loading proceeds exactly when the URL gives an identifier and the transcript is accepted. A bad URL and a missing or blank transcript are reported as such. The text is the non-blank fetched text. |
| Loader.ContentParts | src/rag_pipeline.py:444-453 | There is one part per enriched strategy after the transcript part, and the first part is the header and the transcript. |
| Loader.DocumentLayout | src/rag_pipeline.py:444-460 | The document is the transcript header and text followed by one newline-separated web-context block per enriched strategy, in key order. |
| Loader.LoadRefused | src/rag_pipeline.py:350-423 | A video that cannot be loaded leaves the ledger as it was. The error is a URL error exactly when the URL is refused. An empty-transcript error means the fetched text was blank. |
| Loader.LoadedDocument | src/rag_pipeline.py:427-462 | A loaded video yields one document: the header, the non-blank transcript, and the blocks of the enriched strategies. The metadata holds the identifier, title, URL and configuration. Its enrichment sources are the enriched keys: exactly the known listed strategies that returned text, and none when enrichment is disabled. |
| Loader.LedgerShape | src/rag_pipeline.py:427-453 | The earlier records keep their contents and get flagged by type. Next comes the flagged transcript record at relevance 1.0. After it come the added records, each flagged. |
| Loader.LoadedLedger | src/rag_pipeline.py:427-453 | After a load, the earlier records keep their place and contents, and are flagged when of the transcript or an enriched type. Next comes one transcript record at relevance 1.0, flagged. After it come the enrichment records at relevance 0.8, each of an enriched strategy and flagged. There are none without source tracking. |
| Loader.FreshLedger | src/rag_pipeline.py:427-453 | Loading with a fresh ledger leaves exactly one transcript record, first, at relevance 1.0, and every record flagged as used. |
| Loader.AppendWebContext | src/rag_pipeline.py:451-453 | Its loop appends one block per enriched strategy in key order and marks each strategy used. The log is unchanged. |
| Loader.LoadAndEnrichDocuments | src/rag_pipeline.py:335-465 | Uses the given tracker, or a fresh one. It returns `LoadResult`, and the tracker's records become `LoadLedger` of its earlier records. The query log is unchanged. |
| RagChain.EnrichmentNote | src/rag_pipeline.py:551-555 | The note is either empty or the fixed text around the comma-separated enrichment sources. It is non-empty exactly when enrichment is enabled and the joined source names are non-empty. |
| RagChain.NoteShown | src/rag_pipeline.py:551-555 | When no source name is empty, the note is shown exactly when enrichment is enabled and some source was used. |
| RagChain.LoadedNote | src/rag_pipeline.py:551-555 | For a loaded video, the note is shown exactly when enrichment is enabled and some strategy returned text. |
| RagChain.SourcesUsed | src/rag_pipeline.py:592-594 | The logged sources are `transcript` followed by the enrichment sources. |
| RagChain.LoggedSourcesAreUsed | src/rag_pipeline.py:592-597 | After a load, every ledger record whose type `invoke` logs is flagged as used. |
| RagChain.TrackedRAGChain.constructor | src/rag_pipeline.py:509-513 | Keeps the metadata and the tracker and computes the note. |
| RagChain.TrackedRAGChain.Invoke | src/rag_pipeline.py:587-599 | An answer is returned and logged once, with its first 200 characters and `SourcesUsed`. A chain that raises logs nothing. The records are unchanged. |
| RagChain.TrackedRAGChain.InvokeWithSources | src/rag_pipeline.py:601-609 | Returns the answer with the ledger's summary after logging, and the metadata. On failure nothing is logged. |

## Left out

Each item is what the model does not do, and why.

**Parts of the pipeline not modelled**
- `create_vector_store` (`src/rag_pipeline.py:468-502`) is not part of this
  model. Its chunking is done by a library text splitter whose code is not
  shown, and its embeddings and vector index are foreign libraries.
- `TrackedRAGChain._create_chain` is not part of this model, apart from the
  enrichment note. That covers model selection, the Groq client, the retriever
  and the prompt template (`src/rag_pipeline.py:515-585`). All of it is network
  access and an environment check.
- `TrackedRAGChain.constructor`: the `GROQ_API_KEY` check that can make
  construction raise is not modelled.
- `get_video_title_from_youtube` is network access through `yt-dlp`, so it is the
  parameter `titleOf`.
- `SourceTracker.export_report`, `EnrichmentConfig.to_dict` and `from_dict`,
  `print_config_options` and every `print` call are left out. They are file I/O,
  JSON serialisation and console output.
- `ContentEnricher.get_tracker` only returns the `tracker` field, which the
  model's class exposes directly.

**Environment, clock and errors**
- Environment variables and their writes (`os.environ`) are parameters:
  `apiKey` and `connect`.
- `datetime.now()`: one `now` string per call. The model does not capture that
  each record and the metadata read the clock separately.
- Exception messages are left out. Their texts, including the wrapping
  `Failed to load and process video`, are not modelled; errors are datatype
  variants.

**Approximations**
- `VideoId.QueryParam`:
  - no percent-decoding and no `+`-to-space conversion;
  - only `&` separates fields;
  - the malformed-netloc errors `urlparse` can raise are not modelled.
- `VideoId.QueryOf`: recent Python versions of `urlsplit` first delete every
  tab, carriage return and line feed from the URL, and strip leading control
  characters and spaces. The model keeps those characters, so for URLs that
  contain them the query can differ from Python's.
- `Topics.IsWordChar`: word characters are ASCII only. Python's `\w` also
  matches non-ASCII letters and digits, which here count as separators.
- `Text.Lower` and `Text.Upper`: ASCII case mapping only. There is no Unicode
  case folding.
- `Transcript.Snippet`: a snippet's `text` attribute is a string or absent.
  Non-string texts that would make `join` raise are not modelled.
- `Enricher.Search`: the backend is a function of the query, so a query sent
  twice gets the same answer twice. In the source each `run(query)` is a
  separate network call that can answer differently or raise the second time.
  That matters only for a strategy listed twice. Such a strategy is modelled
  under this assumption, and so is `Enricher.EnrichKeys`' "with that text" for
  it. The model cannot show a later answer replacing an earlier one, nor a
  failed second call that leaves the first text with only one record.
- `Ledger.SourceContribution` records are values. The aliasing of the mutable
  Python objects, for example across the `asdict` copies in `get_summary`, is
  not captured.
- Relevance scores are the hundredths 0, 80 and 100. No floating point is used.

/** Web enrichment: up to four search strategies whose results are kept, cut to a
    configured length, and recorded in the ledger. */
module Enricher {
  import opened Wrappers
  import opened Text
  import opened OrderedDict
  import opened Config
  import opened Ledger
  import opened Topics

  /** The search backend's `run(query)`; None when the call raises. */
  type Search = string -> Option<string>

  // ---------- what one search yields ----------

  /** `_safe_search`'s result: "" without a backend, when the call raises or when it
      returns nothing; otherwise the result cut to `max_results_per_strategy`. */
  function Searched(c: EnrichmentConfig, search: Option<Search>, query: string): (r: string)
    ensures 0 <= c.maxResultsPerStrategy ==> |r| <= c.maxResultsPerStrategy
    ensures search.Some? && search.value(query).Some? ==> r <= search.value(query).value
    ensures search.Some? && search.value(query).Some? && 0 <= c.maxResultsPerStrategy ==>
      |r| == Min(c.maxResultsPerStrategy, |search.value(query).value|)
    ensures search.Some? && search.value(query).Some? && c.maxResultsPerStrategy < 0 ==>
      |r| == Max(0, |search.value(query).value| + c.maxResultsPerStrategy)
    ensures search.None? || search.value(query).None? ==> r == ""
  {
    if search.None? then ""
    else match search.value(query)
      case None => ""
      case Some(results) => if results == "" then "" else PyPrefix(results, c.maxResultsPerStrategy)
  }

  /** The ledger record `_safe_search` adds for a result, if any. */
  function Tracked(c: EnrichmentConfig, sourceType: string, text: string, now: string): (rs: seq<SourceContribution>)
    ensures rs != [] <==> c.trackSources && text != ""
  {
    if c.trackSources && text != "" then [SourceContribution(sourceType, Preview(text), SearchRelevance, false, now)]
    else []
  }

  /** The records a run of searches adds, in order. */
  function RecordsFor(c: EnrichmentConfig, search: Option<Search>, sourceType: string,
                      queries: seq<string>, now: string): seq<SourceContribution>
  {
    if queries == [] then []
    else
      var init := queries[..|queries| - 1];
      RecordsFor(c, search, sourceType, init, now) +
        Tracked(c, sourceType, Searched(c, search, queries[|queries| - 1]), now)
  }

  /** The queries a run of searches sends: none without a backend. */
  function Sent(search: Option<Search>, queries: seq<string>): seq<string> {
    if search.Some? then queries else []
  }

  // ---------- the four strategies ----------

  function BackgroundQuery(topic: string): string { topic + " overview explanation" }

  function DiscussionQuery(title: string): string { "\"" + title + "\" discussion analysis review" }

  function AcademicQuery(mainTopic: string): string { mainTopic + " research paper study academic" }

  function CurrentQuery(mainTopic: string): string { mainTopic + " latest 2025 updates news" }

  /** The topic the academic and current strategies search for: the first key topic, or
      the title when there is none. */
  function MainTopic(title: string, topics: seq<string>): string {
    if topics != [] then topics[0] else title
  }

  /** The topics the background strategy covers: the first two, or all when fewer. */
  function BackgroundTopics(topics: seq<string>): (r: seq<string>)
    ensures |r| == Min(2, |topics|) && r <= topics
  {
    PyPrefix(topics, 2)
  }

  function BackgroundQueries(topics: seq<string>): (qs: seq<string>)
    ensures |qs| == |topics| && forall i :: 0 <= i < |topics| ==> qs[i] == BackgroundQuery(topics[i])
  {
    seq(|topics|, i requires 0 <= i < |topics| => BackgroundQuery(topics[i]))
  }

  function BackgroundPart(topic: string, result: string): string {
    "Background on '" + topic + "':\n" + result
  }

  /** `part` is the labelled result of the search for `topic`, which gave text. */
  predicate LabelledResult(c: EnrichmentConfig, search: Option<Search>, topic: string, part: string) {
    var result := Searched(c, search, BackgroundQuery(topic));
    result != "" && part == BackgroundPart(topic, result)
  }

  /** The labelled parts of the background text, one per topic whose search gave text, in
      topic order (`BackgroundPartsAppend`, `BackgroundPartFound`). */
  function BackgroundParts(c: EnrichmentConfig, search: Option<Search>, topics: seq<string>): (ps: seq<string>)
    ensures |ps| <= |topics|
    ensures |topics| == 1 ==> ps == (if Searched(c, search, BackgroundQuery(topics[0])) != "" then
      [BackgroundPart(topics[0], Searched(c, search, BackgroundQuery(topics[0])))] else [])
  {
    if topics == [] then []
    else
      var init, t := topics[..|topics| - 1], topics[|topics| - 1];
      var result := Searched(c, search, BackgroundQuery(t));
      BackgroundParts(c, search, init) + (if result != "" then [BackgroundPart(t, result)] else [])
  }

  /** Every background part is the labelled, non-empty result of one of the topics. */
  lemma {:induction false} BackgroundPartsLabelled(c: EnrichmentConfig, search: Option<Search>, topics: seq<string>)
    ensures forall k :: 0 <= k < |BackgroundParts(c, search, topics)| ==>
      exists j :: 0 <= j < |topics| && LabelledResult(c, search, topics[j], BackgroundParts(c, search, topics)[k])
  {
    if topics != [] {
      var init, t := topics[..|topics| - 1], topics[|topics| - 1];
      var ps0 := BackgroundParts(c, search, init);
      var ps := BackgroundParts(c, search, topics);
      BackgroundPartsLabelled(c, search, init);
      forall k | 0 <= k < |ps| ensures exists j :: 0 <= j < |topics| && LabelledResult(c, search, topics[j], ps[k]) {
        if k < |ps0| {
          var j :| 0 <= j < |init| && LabelledResult(c, search, init[j], ps0[k]);
          assert init[j] == topics[j] && ps[k] == ps0[k];
        } else {
          assert LabelledResult(c, search, topics[|topics| - 1], ps[k]);
        }
      }
    } else {
      assert BackgroundParts(c, search, topics) == [];
    }
  }

  /** The parts for two runs of topics are those of the first, then those of the second. */
  lemma {:induction false} BackgroundPartsAppend(c: EnrichmentConfig, search: Option<Search>, xs: seq<string>,
                                                 ys: seq<string>)
    ensures BackgroundParts(c, search, xs + ys) == BackgroundParts(c, search, xs) + BackgroundParts(c, search, ys)
    decreases |ys|
  {
    if ys == [] {
      assert xs + ys == xs;
    } else {
      var zs, yi, t := xs + ys, ys[..|ys| - 1], ys[|ys| - 1];
      var result := Searched(c, search, BackgroundQuery(t));
      var last := if result != "" then [BackgroundPart(t, result)] else [];
      assert zs[..|zs| - 1] == xs + yi && zs[|zs| - 1] == t;
      assert BackgroundParts(c, search, zs) == BackgroundParts(c, search, xs + yi) + last;
      BackgroundPartsAppend(c, search, xs, yi);
      assert BackgroundParts(c, search, ys) == BackgroundParts(c, search, yi) + last;
    }
  }

  /** A strategy runs only with a backend and when the configuration lists it. */
  predicate Active(c: EnrichmentConfig, search: Option<Search>, name: string) {
    search.Some? && name in c.strategies
  }

  /** The queries strategy `name` would send. */
  function StrategyQueries(name: string, title: string, topics: seq<string>): seq<string> {
    if name == Background then BackgroundQueries(BackgroundTopics(topics))
    else if name == Discussions then [DiscussionQuery(title)]
    else if name == Academic then [AcademicQuery(MainTopic(title, topics))]
    else if name == Current then [CurrentQuery(MainTopic(title, topics))]
    else []
  }

  /** The queries strategy `name` sends when run. */
  function RunQueries(c: EnrichmentConfig, search: Option<Search>, name: string, title: string,
                      topics: seq<string>): seq<string>
  {
    if Active(c, search, name) then StrategyQueries(name, title, topics) else []
  }

  /** The text strategy `name` returns. */
  function StrategyText(c: EnrichmentConfig, search: Option<Search>, name: string, title: string,
                        topics: seq<string>): string
  {
    if !Active(c, search, name) then ""
    else if name == Background then Join(BackgroundParts(c, search, BackgroundTopics(topics)), "\n\n")
    else if name == Discussions then Searched(c, search, DiscussionQuery(title))
    else if name == Academic then Searched(c, search, AcademicQuery(MainTopic(title, topics)))
    else if name == Current then Searched(c, search, CurrentQuery(MainTopic(title, topics)))
    else ""
  }

  /** The ledger records strategy `name` adds when run. */
  function StrategyRecords(c: EnrichmentConfig, search: Option<Search>, name: string, title: string,
                           topics: seq<string>, now: string): seq<SourceContribution>
  {
    RecordsFor(c, search, name, RunQueries(c, search, name, title, topics), now)
  }

  /** What each active strategy searches for and returns. */
  lemma StrategyUnfold(c: EnrichmentConfig, search: Option<Search>, name: string, title: string, topics: seq<string>,
                       now: string)
    requires Active(c, search, name)
    ensures StrategyRecords(c, search, name, title, topics, now) ==
      RecordsFor(c, search, name, StrategyQueries(name, title, topics), now)
    ensures Sent(search, RunQueries(c, search, name, title, topics)) == StrategyQueries(name, title, topics)
    ensures name == Background ==>
      RunQueries(c, search, name, title, topics) == BackgroundQueries(BackgroundTopics(topics)) &&
      StrategyText(c, search, name, title, topics) == Join(BackgroundParts(c, search, BackgroundTopics(topics)), "\n\n")
    ensures name == Discussions ==>
      RunQueries(c, search, name, title, topics) == [DiscussionQuery(title)] &&
      StrategyText(c, search, name, title, topics) == Searched(c, search, DiscussionQuery(title))
    ensures name == Academic ==>
      RunQueries(c, search, name, title, topics) == [AcademicQuery(MainTopic(title, topics))] &&
      StrategyText(c, search, name, title, topics) == Searched(c, search, AcademicQuery(MainTopic(title, topics)))
    ensures name == Current ==>
      RunQueries(c, search, name, title, topics) == [CurrentQuery(MainTopic(title, topics))] &&
      StrategyText(c, search, name, title, topics) == Searched(c, search, CurrentQuery(MainTopic(title, topics)))
  {
  }

  // ---------- the whole enrichment ----------

  /** The `enriched_data` dict after running the given strategy names in order. */
  function EnrichFrom(c: EnrichmentConfig, search: Option<Search>, title: string, topics: seq<string>,
                      names: seq<string>): Dict<string, string>
  {
    if names == [] then []
    else
      var d := EnrichFrom(c, search, title, topics, names[..|names| - 1]);
      var name := names[|names| - 1];
      if IsKnownStrategy(name) && StrategyText(c, search, name, title, topics) != "" then
        Put(d, name, StrategyText(c, search, name, title, topics))
      else d
  }

  function EnrichRecordsFrom(c: EnrichmentConfig, search: Option<Search>, title: string, topics: seq<string>,
                             names: seq<string>, now: string): seq<SourceContribution>
  {
    if names == [] then []
    else
      var name := names[|names| - 1];
      EnrichRecordsFrom(c, search, title, topics, names[..|names| - 1], now) +
        (if IsKnownStrategy(name) then StrategyRecords(c, search, name, title, topics, now) else [])
  }

  function EnrichQueriesFrom(c: EnrichmentConfig, search: Option<Search>, title: string, topics: seq<string>,
                             names: seq<string>): seq<string>
  {
    if names == [] then []
    else
      var name := names[|names| - 1];
      EnrichQueriesFrom(c, search, title, topics, names[..|names| - 1]) +
        (if IsKnownStrategy(name) then Sent(search, RunQueries(c, search, name, title, topics)) else [])
  }

  /** Enrichment runs only when enabled and a backend is available. */
  predicate Enriches(c: EnrichmentConfig, search: Option<Search>) {
    c.enabled && search.Some?
  }

  /** What `enrich(title, transcript)` returns. */
  function EnrichResult(c: EnrichmentConfig, search: Option<Search>, title: string, transcript: string): Dict<string, string> {
    if Enriches(c, search) then EnrichFrom(c, search, title, KeyTopics(transcript, DefaultMaxTopics), c.strategies)
    else []
  }

  function EnrichRecords(c: EnrichmentConfig, search: Option<Search>, title: string, transcript: string,
                         now: string): seq<SourceContribution>
  {
    if Enriches(c, search) then
      EnrichRecordsFrom(c, search, title, KeyTopics(transcript, DefaultMaxTopics), c.strategies, now)
    else []
  }

  function EnrichQueries(c: EnrichmentConfig, search: Option<Search>, title: string, transcript: string): seq<string> {
    if Enriches(c, search) then
      EnrichQueriesFrom(c, search, title, KeyTopics(transcript, DefaultMaxTopics), c.strategies)
    else []
  }

  // ---------- what enrichment promises ----------

  /** `r` is the record `_safe_search` adds for a non-empty result of one of `queries`. */
  predicate RecordOfSearch(c: EnrichmentConfig, search: Option<Search>, sourceType: string,
                           queries: seq<string>, now: string, r: SourceContribution)
  {
    exists j :: 0 <= j < |queries| && Searched(c, search, queries[j]) != "" &&
      r == SourceContribution(sourceType, Preview(Searched(c, search, queries[j])), SearchRelevance, false, now)
  }

  /** Every record a run of searches adds is the unflagged relevance-0.8 record of a
      non-empty result, at most one per search; without source tracking nothing is
      recorded. */
  lemma {:induction false} RecordsShape(c: EnrichmentConfig, search: Option<Search>, sourceType: string,
                                        queries: seq<string>, now: string)
    ensures |RecordsFor(c, search, sourceType, queries, now)| <= |queries|
    ensures !c.trackSources ==> RecordsFor(c, search, sourceType, queries, now) == []
    ensures forall i :: 0 <= i < |RecordsFor(c, search, sourceType, queries, now)| ==>
      RecordOfSearch(c, search, sourceType, queries, now, RecordsFor(c, search, sourceType, queries, now)[i])
  {
    if queries != [] {
      var init := queries[..|queries| - 1];
      RecordsShape(c, search, sourceType, init, now);
      var rs0 := RecordsFor(c, search, sourceType, init, now);
      var rs := RecordsFor(c, search, sourceType, queries, now);
      var last := |queries| - 1;
      assert rs == rs0 + Tracked(c, sourceType, Searched(c, search, queries[last]), now);
      forall i | 0 <= i < |rs| ensures RecordOfSearch(c, search, sourceType, queries, now, rs[i]) {
        if i < |rs0| {
          assert RecordOfSearch(c, search, sourceType, init, now, rs0[i]);
          var j :| 0 <= j < |init| && Searched(c, search, init[j]) != "" &&
            rs0[i] == SourceContribution(sourceType, Preview(Searched(c, search, init[j])), SearchRelevance, false, now);
          assert init[j] == queries[j];
        } else {
          assert rs[i] == SourceContribution(sourceType, Preview(Searched(c, search, queries[last])), SearchRelevance, false, now);
        }
      }
    }
  }

  /** Background sends at most two searches, every other strategy at most one, and an
      inactive or unknown strategy none. */
  lemma StrategySearchCount(c: EnrichmentConfig, search: Option<Search>, name: string, title: string,
                            topics: seq<string>)
    ensures |RunQueries(c, search, name, title, topics)| <= (if name == Background then 2 else 1)
    ensures !Active(c, search, name) || !IsKnownStrategy(name) ==> RunQueries(c, search, name, title, topics) == []
    ensures name == Background ==> RunQueries(c, search, name, title, topics) <= BackgroundQueries(topics)
  {
    if Active(c, search, name) && name == Background {
      var sel := BackgroundTopics(topics);
      assert BackgroundQueries(topics)[..|sel|] == BackgroundQueries(sel);
    }
  }

  /** The result's keys are exactly the known strategy names among `names` whose text
      is non-empty, each once and holding that text. */
  lemma {:induction false} EnrichKeys(c: EnrichmentConfig, search: Option<Search>, title: string,
                                      topics: seq<string>, names: seq<string>)
    ensures var d := EnrichFrom(c, search, title, topics, names);
      DistinctKeys(d) &&
      (forall k :: k in Keys(d) <==> k in names && IsKnownStrategy(k) && StrategyText(c, search, k, title, topics) != "") &&
      (forall k :: k in Keys(d) ==> Get(d, k) == Some(StrategyText(c, search, k, title, topics)))
  {
    if names != [] {
      var init, name := names[..|names| - 1], names[|names| - 1];
      assert names == init + [name];
      EnrichKeys(c, search, title, topics, init);
    }
  }

  /** The keys come in the order their names first appear in `names`: a name listed twice
      keeps the place of its first run. */
  lemma {:induction false} EnrichOrder(c: EnrichmentConfig, search: Option<Search>, title: string,
                                       topics: seq<string>, names: seq<string>, a: string, b: string)
    requires var d := EnrichFrom(c, search, title, topics, names); a in Keys(d) && b in Keys(d)
    ensures var d := EnrichFrom(c, search, title, topics, names);
      Pos(d, a) < Pos(d, b) <==> FirstIndex(names, a) < FirstIndex(names, b)
    decreases |names|
  {
    var init, name := names[..|names| - 1], names[|names| - 1];
    var d0 := EnrichFrom(c, search, title, topics, init);
    if a in Keys(d0) && b in Keys(d0) {
      EnrichOrder(c, search, title, topics, init, a, b);
      EnrichPosKept(c, search, title, topics, names, a);
      EnrichPosKept(c, search, title, topics, names, b);
    } else if a in Keys(d0) {
      EnrichPosKept(c, search, title, topics, names, a);
      EnrichPosNew(c, search, title, topics, names, b);
    } else if b in Keys(d0) {
      EnrichPosKept(c, search, title, topics, names, b);
      EnrichPosNew(c, search, title, topics, names, a);
    } else {
      EnrichPosNew(c, search, title, topics, names, a);
      EnrichPosNew(c, search, title, topics, names, b);
    }
  }

  /** A key the earlier names produced keeps its place, and its name came earlier. */
  lemma EnrichPosKept(c: EnrichmentConfig, search: Option<Search>, title: string,
                      topics: seq<string>, names: seq<string>, a: string)
    requires names != [] && a in Keys(EnrichFrom(c, search, title, topics, names[..|names| - 1]))
    ensures var d0 := EnrichFrom(c, search, title, topics, names[..|names| - 1]);
      Pos(EnrichFrom(c, search, title, topics, names), a) == Pos(d0, a) < |d0| &&
      FirstIndex(names, a) == FirstIndex(names[..|names| - 1], a) < |names| - 1
  {
    var init := names[..|names| - 1];
    var d0 := EnrichFrom(c, search, title, topics, init);
    EnrichKeys(c, search, title, topics, init);
    FirstIndexAppend(Keys(d0), names[|names| - 1], a);
    assert names == init + [names[|names| - 1]];
    FirstIndexAppend(init, names[|names| - 1], a);
  }

  /** A key the last name adds goes last, and its name was not listed before. */
  lemma EnrichPosNew(c: EnrichmentConfig, search: Option<Search>, title: string,
                     topics: seq<string>, names: seq<string>, a: string)
    requires names != [] && a in Keys(EnrichFrom(c, search, title, topics, names))
    requires a !in Keys(EnrichFrom(c, search, title, topics, names[..|names| - 1]))
    ensures var d0 := EnrichFrom(c, search, title, topics, names[..|names| - 1]);
      Pos(EnrichFrom(c, search, title, topics, names), a) == |d0| && FirstIndex(names, a) == |names| - 1
  {
    var init, name := names[..|names| - 1], names[|names| - 1];
    var d0 := EnrichFrom(c, search, title, topics, init);
    var text := StrategyText(c, search, name, title, topics);
    var d := EnrichFrom(c, search, title, topics, names);
    assert IsKnownStrategy(name) && text != "";
    assert d == Put(d0, name, text);
    assert name !in Keys(d0);
    assert Keys(d) == Keys(d0) + [name];
    assert a == name;
    FirstIndexAppend(Keys(d0), name, a);
    EnrichKeys(c, search, title, topics, init);
    assert a !in init;
    assert forall i :: 0 <= i < |init| ==> names[i] == init[i];
    assert names[|names| - 1] == a;
    assert Pos(d, a) == |d0|;
  }

  /** A record enrichment adds: relevance 0.8, unflagged, typed by a known strategy the
      configuration lists. */
  predicate EnrichmentRecord(c: EnrichmentConfig, names: seq<string>, now: string, r: SourceContribution) {
    r.relevanceScore == SearchRelevance && !r.usedInContext && r.timestamp == now &&
    IsKnownStrategy(r.sourceType) && r.sourceType in names && r.sourceType in c.strategies
  }

  /** The records enrichment adds are all enrichment records; without source tracking
      there are none. */
  lemma {:induction false} EnrichRecordsShape(c: EnrichmentConfig, search: Option<Search>, title: string,
                                              topics: seq<string>, names: seq<string>, now: string)
    ensures !c.trackSources ==> EnrichRecordsFrom(c, search, title, topics, names, now) == []
    ensures forall i :: 0 <= i < |EnrichRecordsFrom(c, search, title, topics, names, now)| ==>
      EnrichmentRecord(c, names, now, EnrichRecordsFrom(c, search, title, topics, names, now)[i])
  {
    if names != [] {
      var init, name := names[..|names| - 1], names[|names| - 1];
      assert names == init + [name];
      EnrichRecordsShape(c, search, title, topics, init, now);
      var rs0 := EnrichRecordsFrom(c, search, title, topics, init, now);
      var more := if IsKnownStrategy(name) then StrategyRecords(c, search, name, title, topics, now) else [];
      var qs := RunQueries(c, search, name, title, topics);
      RecordsShape(c, search, name, qs, now);
      var rs := rs0 + more;
      forall i | 0 <= i < |rs| ensures EnrichmentRecord(c, names, now, rs[i]) {
        if i < |rs0| {
          assert rs[i] == rs0[i];
          assert EnrichmentRecord(c, init, now, rs0[i]);
        } else {
          assert rs[i] == more[i - |rs0|];
          assert RecordOfSearch(c, search, name, qs, now, rs[i]);
          assert qs != [];
        }
      }
    }
  }

  /** Every part of the background text is non-empty. */
  lemma {:induction false} BackgroundPartsNonEmpty(c: EnrichmentConfig, search: Option<Search>, topics: seq<string>)
    ensures forall k :: 0 <= k < |BackgroundParts(c, search, topics)| ==> BackgroundParts(c, search, topics)[k] != ""
  {
    if topics != [] {
      BackgroundPartsNonEmpty(c, search, topics[..|topics| - 1]);
    }
  }

  /** A background topic whose search gave text contributes its own labelled part. */
  lemma {:induction false} BackgroundPartFound(c: EnrichmentConfig, search: Option<Search>, topics: seq<string>, j: nat)
    requires j < |topics| && Searched(c, search, BackgroundQuery(topics[j])) != ""
    ensures BackgroundPart(topics[j], Searched(c, search, BackgroundQuery(topics[j]))) in BackgroundParts(c, search, topics)
  {
    var init := topics[..|topics| - 1];
    if j < |topics| - 1 {
      assert init[j] == topics[j];
      BackgroundPartFound(c, search, init, j);
    }
  }

  /** Every record a strategy adds carries that strategy's name, and a strategy that adds
      a record returns text. */
  lemma StrategyRecordsHaveText(c: EnrichmentConfig, search: Option<Search>, name: string, title: string,
                                topics: seq<string>, now: string)
    ensures forall i :: 0 <= i < |StrategyRecords(c, search, name, title, topics, now)| ==>
      StrategyRecords(c, search, name, title, topics, now)[i].sourceType == name
    ensures StrategyRecords(c, search, name, title, topics, now) != [] ==>
      StrategyText(c, search, name, title, topics) != ""
  {
    var qs := RunQueries(c, search, name, title, topics);
    var rs := StrategyRecords(c, search, name, title, topics, now);
    RecordsShape(c, search, name, qs, now);
    forall i | 0 <= i < |rs| ensures rs[i].sourceType == name {
      assert RecordOfSearch(c, search, name, qs, now, rs[i]);
    }
    if rs != [] {
      assert RecordOfSearch(c, search, name, qs, now, rs[0]);
      var j :| 0 <= j < |qs| && Searched(c, search, qs[j]) != "" &&
        rs[0] == SourceContribution(name, Preview(Searched(c, search, qs[j])), SearchRelevance, false, now);
      if name == Background {
        BackgroundHasText(c, search, topics, j);
      }
    }
  }

  /** A background topic whose search gave text makes the background text non-empty. */
  lemma BackgroundHasText(c: EnrichmentConfig, search: Option<Search>, topics: seq<string>, j: nat)
    requires j < |BackgroundTopics(topics)|
    requires Searched(c, search, BackgroundQueries(BackgroundTopics(topics))[j]) != ""
    ensures Join(BackgroundParts(c, search, BackgroundTopics(topics)), "\n\n") != ""
  {
    var selected := BackgroundTopics(topics);
    assert BackgroundQueries(selected)[j] == BackgroundQuery(selected[j]);
    BackgroundPartFound(c, search, selected, j);
    BackgroundPartsNonEmpty(c, search, selected);
    JoinEmpty(BackgroundParts(c, search, selected), "\n\n");
  }

  /** Every record enrichment adds is of a strategy that ended up among the keys. */
  lemma {:induction false} RecordedKeys(c: EnrichmentConfig, search: Option<Search>, title: string,
                                        topics: seq<string>, names: seq<string>, now: string)
    ensures forall i :: 0 <= i < |EnrichRecordsFrom(c, search, title, topics, names, now)| ==>
      EnrichRecordsFrom(c, search, title, topics, names, now)[i].sourceType in Keys(EnrichFrom(c, search, title, topics, names))
  {
    if names != [] {
      var init, name := names[..|names| - 1], names[|names| - 1];
      RecordedKeys(c, search, title, topics, init, now);
      var d0, d := EnrichFrom(c, search, title, topics, init), EnrichFrom(c, search, title, topics, names);
      var rs0, rs := EnrichRecordsFrom(c, search, title, topics, init, now), EnrichRecordsFrom(c, search, title, topics, names, now);
      assert forall k :: k in Keys(d0) ==> k in Keys(d);
      if IsKnownStrategy(name) {
        StrategyRecordsHaveText(c, search, name, title, topics, now);
        var more := StrategyRecords(c, search, name, title, topics, now);
        assert rs == rs0 + more;
        forall i | 0 <= i < |rs| ensures rs[i].sourceType in Keys(d) {
          if i < |rs0| {
            assert rs[i] == rs0[i];
          } else {
            assert rs[i] == more[i - |rs0|];
          }
        }
      } else {
        assert rs == rs0 + [];
      }
    }
  }

  /** What `enrich` returns and records for a whole configuration: nothing when disabled
      or without a backend; otherwise one key per known listed strategy with text, and
      only enrichment records. */
  lemma EnrichFacts(c: EnrichmentConfig, search: Option<Search>, title: string, transcript: string, now: string)
    ensures !Enriches(c, search) ==>
      EnrichResult(c, search, title, transcript) == [] && EnrichRecords(c, search, title, transcript, now) == [] &&
      EnrichQueries(c, search, title, transcript) == []
    ensures DistinctKeys(EnrichResult(c, search, title, transcript))
    ensures forall k :: k in Keys(EnrichResult(c, search, title, transcript)) <==>
      Enriches(c, search) && k in c.strategies && IsKnownStrategy(k) &&
      StrategyText(c, search, k, title, KeyTopics(transcript, DefaultMaxTopics)) != ""
    ensures !c.trackSources ==> EnrichRecords(c, search, title, transcript, now) == []
    ensures forall i :: 0 <= i < |EnrichRecords(c, search, title, transcript, now)| ==>
      EnrichmentRecord(c, c.strategies, now, EnrichRecords(c, search, title, transcript, now)[i])
    ensures forall i :: 0 <= i < |EnrichRecords(c, search, title, transcript, now)| ==>
      EnrichRecords(c, search, title, transcript, now)[i].sourceType in Keys(EnrichResult(c, search, title, transcript))
  {
    var topics := KeyTopics(transcript, DefaultMaxTopics);
    if Enriches(c, search) {
      EnrichKeys(c, search, title, topics, c.strategies);
      EnrichRecordsShape(c, search, title, topics, c.strategies, now);
      RecordedKeys(c, search, title, topics, c.strategies, now);
    }
  }

  /** The backend an enricher gets: `connect`'s, when enrichment is enabled and an API
      key is set; none otherwise. */
  function SearchFor(c: EnrichmentConfig, apiKey: Option<string>, connect: Option<Search>): (r: Option<Search>)
    ensures r.Some? ==> c.enabled && apiKey.Some? && apiKey.value != "" && r == connect
    ensures c.enabled && apiKey.Some? && apiKey.value != "" ==> r == connect
  {
    if c.enabled && apiKey.Some? && apiKey.value != "" then connect else None
  }

  /** `ContentEnricher`. `queriesSent` is the history of calls to the search backend. */
  class ContentEnricher {
    const config: EnrichmentConfig
    const tracker: SourceTracker
    const search: Option<Search>
    ghost var queriesSent: seq<string>

    /** A backend is set up only when enrichment is enabled and an API key is set;
        `connect` is the backend's construction, None when it raises. Without a
        tracker of its own the enricher starts an empty one. */
    constructor (config: EnrichmentConfig, sourceTracker: SourceTracker?, apiKey: Option<string>,
                 connect: Option<Search>)
      ensures this.config == config
      ensures sourceTracker != null ==> tracker == sourceTracker
      ensures sourceTracker == null ==> fresh(tracker) && tracker.sources == [] && tracker.queryHistory == []
      ensures search == SearchFor(config, apiKey, connect)
      ensures queriesSent == []
    {
      this.config := config;
      if sourceTracker != null {
        tracker := sourceTracker;
      } else {
        tracker := new SourceTracker();
      }
      if config.enabled && apiKey.Some? && apiKey.value != "" {
        search := connect;
      } else {
        search := None;
      }
      queriesSent := [];
    }

    /** `_safe_search`. */
    method SafeSearch(query: string, sourceType: string, now: string) returns (r: string)
      modifies this, tracker
      ensures r == Searched(config, search, query)
      ensures queriesSent == old(queriesSent) + Sent(search, [query])
      ensures tracker.sources == old(tracker.sources) + RecordsFor(config, search, sourceType, [query], now)
      ensures tracker.queryHistory == old(tracker.queryHistory)
    {
      assert [query][..0] == [];
      if search.None? {
        return "";
      }
      queriesSent := queriesSent + [query];
      match search.value(query)
      case None =>
        r := "";
      case Some(results) =>
        r := if results != "" then PyPrefix(results, config.maxResultsPerStrategy) else "";
        if config.trackSources && r != "" {
          tracker.AddSource(sourceType, r, SearchRelevance, now);
        }
    }

    /** Strategy 1, `get_background_context`: one search per topic among the first two. */
    method BackgroundContext(title: string, topics: seq<string>, now: string) returns (r: string)
      modifies this, tracker
      ensures r == StrategyText(config, search, Background, title, topics)
      ensures queriesSent == old(queriesSent) + Sent(search, RunQueries(config, search, Background, title, topics))
      ensures tracker.sources == old(tracker.sources) + StrategyRecords(config, search, Background, title, topics, now)
      ensures tracker.queryHistory == old(tracker.queryHistory)
    {
      if search.None? || Background !in config.strategies {
        return "";
      }
      var selected := BackgroundTopics(topics);
      var parts: seq<string> := [];
      for i := 0 to |selected|
        invariant parts == BackgroundParts(config, search, selected[..i])
        invariant queriesSent == old(queriesSent) + BackgroundQueries(selected[..i])
        invariant tracker.sources == old(tracker.sources) + RecordsFor(config, search, Background, BackgroundQueries(selected[..i]), now)
        invariant tracker.queryHistory == old(tracker.queryHistory)
      {
        var q := BackgroundQuery(selected[i]);
        BackgroundStep(config, search, selected, i, now);
        var result := SafeSearch(q, Background, now);
        Assoc(old(queriesSent), BackgroundQueries(selected[..i]), [q]);
        Assoc(old(tracker.sources), RecordsFor(config, search, Background, BackgroundQueries(selected[..i]), now),
              RecordsFor(config, search, Background, [q], now));
        if result != "" {
          parts := parts + [BackgroundPart(selected[i], result)];
        }
      }
      assert selected[..|selected|] == selected;
      StrategyUnfold(config, search, Background, title, topics, now);
      r := Join(parts, "\n\n");
    }

    /** Strategy 2, `get_related_discussions`: one search for the quoted title. */
    method RelatedDiscussions(title: string, now: string) returns (r: string)
      modifies this, tracker
      ensures r == StrategyText(config, search, Discussions, title, [])
      ensures queriesSent == old(queriesSent) + Sent(search, RunQueries(config, search, Discussions, title, []))
      ensures tracker.sources == old(tracker.sources) + StrategyRecords(config, search, Discussions, title, [], now)
      ensures tracker.queryHistory == old(tracker.queryHistory)
    {
      if search.None? || Discussions !in config.strategies {
        return "";
      }
      r := SafeSearch(DiscussionQuery(title), Discussions, now);
    }

    /** Strategy 3, `get_academic_context`: one search for the main topic. */
    method AcademicContext(title: string, topics: seq<string>, now: string) returns (r: string)
      modifies this, tracker
      ensures r == StrategyText(config, search, Academic, title, topics)
      ensures queriesSent == old(queriesSent) + Sent(search, RunQueries(config, search, Academic, title, topics))
      ensures tracker.sources == old(tracker.sources) + StrategyRecords(config, search, Academic, title, topics, now)
      ensures tracker.queryHistory == old(tracker.queryHistory)
    {
      if search.None? || Academic !in config.strategies {
        return "";
      }
      var mainTopic := if topics != [] then topics[0] else title;
      r := SafeSearch(AcademicQuery(mainTopic), Academic, now);
    }

    /** Strategy 4, `get_current_info`: one search for recent news on the main topic. */
    method CurrentInfo(title: string, topics: seq<string>, now: string) returns (r: string)
      modifies this, tracker
      ensures r == StrategyText(config, search, Current, title, topics)
      ensures queriesSent == old(queriesSent) + Sent(search, RunQueries(config, search, Current, title, topics))
      ensures tracker.sources == old(tracker.sources) + StrategyRecords(config, search, Current, title, topics, now)
      ensures tracker.queryHistory == old(tracker.queryHistory)
    {
      if search.None? || Current !in config.strategies {
        return "";
      }
      var mainTopic := if topics != [] then topics[0] else title;
      r := SafeSearch(CurrentQuery(mainTopic), Current, now);
    }

    /** `strategy_map[name]()` for a known strategy name. */
    method RunStrategy(name: string, title: string, topics: seq<string>, now: string) returns (r: string)
      requires IsKnownStrategy(name)
      modifies this, tracker
      ensures r == StrategyText(config, search, name, title, topics)
      ensures queriesSent == old(queriesSent) + Sent(search, RunQueries(config, search, name, title, topics))
      ensures tracker.sources == old(tracker.sources) + StrategyRecords(config, search, name, title, topics, now)
      ensures tracker.queryHistory == old(tracker.queryHistory)
    {
      if name == Background {
        r := BackgroundContext(title, topics, now);
      } else if name == Discussions {
        r := RelatedDiscussions(title, now);
      } else if name == Academic {
        r := AcademicContext(title, topics, now);
      } else {
        r := CurrentInfo(title, topics, now);
      }
    }

    /** `enrich`: runs the configured strategies in their listed order and keeps the
        non-empty results under the strategy's name. */
    method Enrich(title: string, transcript: string, now: string) returns (enriched: Dict<string, string>)
      modifies this, tracker
      ensures enriched == EnrichResult(config, search, title, transcript)
      ensures queriesSent == old(queriesSent) + EnrichQueries(config, search, title, transcript)
      ensures tracker.sources == old(tracker.sources) + EnrichRecords(config, search, title, transcript, now)
      ensures tracker.queryHistory == old(tracker.queryHistory)
    {
      if !config.enabled || search.None? {
        assert !Enriches(config, search);
        assert EnrichResult(config, search, title, transcript) == [];
        assert EnrichQueries(config, search, title, transcript) == [];
        assert EnrichRecords(config, search, title, transcript, now) == [];
        AppendNothing(queriesSent);
        AppendNothing(tracker.sources);
        return [];
      }
      var topics := ExtractKeyTopics(transcript, DefaultMaxTopics);
      var names := config.strategies;
      ghost var sent0, sources0 := queriesSent, tracker.sources;
      enriched := [];
      for i := 0 to |names|
        invariant enriched == EnrichFrom(config, search, title, topics, names[..i])
        invariant queriesSent == sent0 + EnrichQueriesFrom(config, search, title, topics, names[..i])
        invariant tracker.sources == sources0 + EnrichRecordsFrom(config, search, title, topics, names[..i], now)
        invariant tracker.queryHistory == old(tracker.queryHistory)
      {
        var name := names[i];
        ghost var sent, records := EnrichQueriesFrom(config, search, title, topics, names[..i]),
                                   EnrichRecordsFrom(config, search, title, topics, names[..i], now);
        EnrichStep(config, search, title, topics, names, i, now);
        if IsKnownStrategy(name) {
          var result := RunStrategy(name, title, topics, now);
          Assoc(sent0, sent, Sent(search, RunQueries(config, search, name, title, topics)));
          Assoc(sources0, records, StrategyRecords(config, search, name, title, topics, now));
          if result != "" {
            enriched := Put(enriched, name, result);
          }
        } else {
          AppendNothing(sent);
          AppendNothing(records);
        }
      }
      assert names[..|names|] == names;
    }
  }

  /** Regrouping a concatenation; called where the solver would otherwise prove it inside
      a large proof context. */
  lemma Assoc<T>(a: seq<T>, b: seq<T>, c: seq<T>)
    ensures a + b + c == a + (b + c)
  {
  }

  lemma AppendNothing<T>(a: seq<T>)
    ensures a + [] == a
  {
  }

  /** One step of the enrichment loop, as the specification functions see it. */
  lemma EnrichStep(c: EnrichmentConfig, search: Option<Search>, title: string, topics: seq<string>,
                   names: seq<string>, i: nat, now: string)
    requires i < |names|
    ensures var name := names[i];
      EnrichFrom(c, search, title, topics, names[..i + 1]) ==
        (if IsKnownStrategy(name) && StrategyText(c, search, name, title, topics) != "" then
          Put(EnrichFrom(c, search, title, topics, names[..i]), name, StrategyText(c, search, name, title, topics))
         else EnrichFrom(c, search, title, topics, names[..i]))
    ensures var name := names[i];
      EnrichRecordsFrom(c, search, title, topics, names[..i + 1], now) ==
        EnrichRecordsFrom(c, search, title, topics, names[..i], now) +
        (if IsKnownStrategy(name) then StrategyRecords(c, search, name, title, topics, now) else [])
    ensures var name := names[i];
      EnrichQueriesFrom(c, search, title, topics, names[..i + 1]) ==
        EnrichQueriesFrom(c, search, title, topics, names[..i]) +
        (if IsKnownStrategy(name) then Sent(search, RunQueries(c, search, name, title, topics)) else [])
  {
    assert names[..i + 1][..i] == names[..i];
  }

  /** One step of the background loop, as the specification functions see it. */
  lemma BackgroundStep(c: EnrichmentConfig, search: Option<Search>, selected: seq<string>, i: nat, now: string)
    requires i < |selected|
    ensures BackgroundQueries(selected[..i + 1]) == BackgroundQueries(selected[..i]) + [BackgroundQuery(selected[i])]
    ensures BackgroundParts(c, search, selected[..i + 1]) ==
      BackgroundParts(c, search, selected[..i]) +
      (if Searched(c, search, BackgroundQuery(selected[i])) != ""
       then [BackgroundPart(selected[i], Searched(c, search, BackgroundQuery(selected[i])))] else [])
    ensures RecordsFor(c, search, Background, BackgroundQueries(selected[..i + 1]), now) ==
      RecordsFor(c, search, Background, BackgroundQueries(selected[..i]), now) +
      RecordsFor(c, search, Background, [BackgroundQuery(selected[i])], now)
  {
    var qs := BackgroundQueries(selected[..i + 1]);
    assert selected[..i + 1][..i] == selected[..i];
    assert qs[..i] == BackgroundQueries(selected[..i]);
    assert [BackgroundQuery(selected[i])][..0] == [];
  }
}

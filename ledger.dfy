/** The source ledger (`SourceTracker`): an append-only list of source records, whose
    only mutable field is the used-in-context flag, and an append-only query log. */
module Ledger {
  import opened Text
  import opened OrderedDict

  /** Relevance scores in hundredths; the pipeline uses 0.0 (the default), 0.8 and 1.0. */
  type Relevance = nat

  const DefaultRelevance: Relevance := 0
  const SearchRelevance: Relevance := 80
  const TranscriptRelevance: Relevance := 100

  /** How many characters of a source, and of an answer, the ledger keeps. */
  const PreviewLength: nat := 200

  const Ellipsis: string := "..."

  datatype SourceContribution = SourceContribution(
    sourceType: string,
    contentPreview: string,
    relevanceScore: Relevance,
    usedInContext: bool,
    timestamp: string)

  datatype QueryLogEntry = QueryLogEntry(
    timestamp: string,
    question: string,
    answerPreview: string,
    sourcesUsed: seq<string>)

  /** What `get_summary` returns; `sourcesByType` keeps Python's key order. */
  datatype Summary = Summary(
    totalSources: nat,
    usedSources: nat,
    sourcesByType: Dict<string, nat>,
    sources: seq<SourceContribution>)

  /** The preview `add_source` stores: short content verbatim, long content cut to 200
      characters and marked with an ellipsis. */
  function Preview(content: string): (p: string)
    ensures |content| <= PreviewLength ==> p == content
    ensures |content| > PreviewLength ==>
      |p| == PreviewLength + 3 && p[..PreviewLength] == content[..PreviewLength] && p[PreviewLength..] == Ellipsis
  {
    if |content| > PreviewLength then content[..PreviewLength] + Ellipsis else content
  }

  /** A preview is its own preview: storing it again changes nothing. */
  lemma PreviewIdempotent(content: string)
    ensures Preview(Preview(content)) == Preview(content)
  {
    if |content| > PreviewLength {
      var p := Preview(content);
      assert p == p[..PreviewLength] + p[PreviewLength..];
    }
  }

  /** A record after `mark_used(t)`. */
  function Flag(r: SourceContribution, t: string): SourceContribution {
    if r.sourceType == t then r.(usedInContext := true) else r
  }

  /** The records after `mark_used(t)`: every record of type `t` is flagged, every other
      record and every other field is untouched, and no record is added or removed. */
  function MarkedUsed(s: seq<SourceContribution>, t: string): (r: seq<SourceContribution>)
    ensures |r| == |s|
    ensures forall i :: 0 <= i < |s| ==>
      r[i].usedInContext == (s[i].usedInContext || s[i].sourceType == t)
    ensures forall i :: 0 <= i < |s| ==> r[i].(usedInContext := s[i].usedInContext) == s[i]
  {
    seq(|s|, i requires 0 <= i < |s| => Flag(s[i], t))
  }

  /** Marking a type twice in a row is the same as marking it once. */
  lemma MarkUsedIdempotent(s: seq<SourceContribution>, t: string)
    ensures MarkedUsed(MarkedUsed(s, t), t) == MarkedUsed(s, t)
  {
  }

  /** Marking two types gives the same ledger in either order. */
  lemma MarkUsedCommutes(s: seq<SourceContribution>, a: string, b: string)
    ensures MarkedUsed(MarkedUsed(s, a), b) == MarkedUsed(MarkedUsed(s, b), a)
  {
  }

  /** Marking acts record by record: records added later are only affected by later
      calls. */
  lemma MarkUsedAppend(s: seq<SourceContribution>, later: seq<SourceContribution>, t: string)
    ensures MarkedUsed(s + later, t) == MarkedUsed(s, t) + MarkedUsed(later, t)
  {
  }

  /** The records after `mark_used(k)` for each `k` of `ks` in turn. */
  function MarkedUsedAll(s: seq<SourceContribution>, ks: seq<string>): (r: seq<SourceContribution>)
    ensures |r| == |s|
    ensures forall i :: 0 <= i < |s| ==>
      r[i].usedInContext == (s[i].usedInContext || s[i].sourceType in ks)
    ensures forall i :: 0 <= i < |s| ==> r[i].(usedInContext := s[i].usedInContext) == s[i]
  {
    if ks == [] then s
    else MarkedUsed(MarkedUsedAll(s, ks[..|ks| - 1]), ks[|ks| - 1])
  }

  /** Marking several types also acts record by record. */
  lemma {:induction false} MarkUsedAllAppend(s: seq<SourceContribution>, later: seq<SourceContribution>, ks: seq<string>)
    ensures MarkedUsedAll(s + later, ks) == MarkedUsedAll(s, ks) + MarkedUsedAll(later, ks)
  {
    if ks != [] {
      var init := ks[..|ks| - 1];
      MarkUsedAllAppend(s, later, init);
      MarkUsedAppend(MarkedUsedAll(s, init), MarkedUsedAll(later, init), ks[|ks| - 1]);
    }
  }

  /** `sum(1 for s in sources if s.used_in_context)`. */
  function CountUsed(s: seq<SourceContribution>): nat {
    if s == [] then 0
    else CountUsed(s[..|s| - 1]) + (if s[|s| - 1].usedInContext then 1 else 0)
  }

  function TypesOf(s: seq<SourceContribution>): (ts: seq<string>)
    ensures |ts| == |s| && forall i :: 0 <= i < |s| ==> ts[i] == s[i].sourceType
  {
    seq(|s|, i requires 0 <= i < |s| => s[i].sourceType)
  }

  /** What `get_summary` reports for the records `s`. */
  function SummaryOf(s: seq<SourceContribution>): Summary {
    Summary(|s|, CountUsed(s), Tally(TypesOf(s)), s)
  }

  lemma {:induction false} CountUsedBounds(s: seq<SourceContribution>)
    ensures CountUsed(s) <= |s|
    ensures CountUsed(s) == |s| <==> forall i :: 0 <= i < |s| ==> s[i].usedInContext
    ensures CountUsed(s) == 0 <==> forall i :: 0 <= i < |s| ==> !s[i].usedInContext
  {
    if s != [] {
      var init := s[..|s| - 1];
      CountUsedBounds(init);
      assert forall i :: 0 <= i < |init| ==> init[i] == s[i];
    }
  }

  /** The summary counts every record once: the total is the number of records, at most
      that many are used, all of them exactly when every record is flagged, and the
      per-type counts are the number of records of each type and sum to the total. */
  lemma SummaryCounts(s: seq<SourceContribution>)
    ensures SummaryOf(s).totalSources == |s|
    ensures SummaryOf(s).usedSources <= SummaryOf(s).totalSources
    ensures SummaryOf(s).usedSources == |s| <==> forall i :: 0 <= i < |s| ==> s[i].usedInContext
    ensures Total(SummaryOf(s).sourcesByType) == SummaryOf(s).totalSources
    ensures DistinctKeys(SummaryOf(s).sourcesByType)
    ensures forall t :: Count(SummaryOf(s).sourcesByType, t) == multiset(TypesOf(s))[t]
    ensures forall t :: t in Keys(SummaryOf(s).sourcesByType) <==> t in TypesOf(s)
  {
    CountUsedBounds(s);
  }

  /** Flagging never lowers the used count. */
  lemma {:induction false} MarkUsedCountsUp(s: seq<SourceContribution>, t: string)
    ensures CountUsed(s) <= CountUsed(MarkedUsed(s, t))
  {
    if s != [] {
      var init := s[..|s| - 1];
      MarkUsedCountsUp(init, t);
      assert MarkedUsed(s, t)[..|s| - 1] == MarkedUsed(init, t);
    }
  }

  /** One turn of either loop of `get_summary`, as the specification functions see it. */
  lemma SummaryStep(s: seq<SourceContribution>, i: nat)
    requires i < |s|
    ensures CountUsed(s[..i + 1]) == CountUsed(s[..i]) + (if s[i].usedInContext then 1 else 0)
    ensures Tally(TypesOf(s[..i + 1])) == Bump(Tally(TypesOf(s[..i])), s[i].sourceType)
  {
    assert s[..i + 1][..i] == s[..i];
    var ts := TypesOf(s[..i + 1]);
    assert ts[..i] == TypesOf(s[..i]) && ts[i] == s[i].sourceType;
  }

  /** The ledger of one processed video. */
  class SourceTracker {
    var sources: seq<SourceContribution>
    var queryHistory: seq<QueryLogEntry>

    constructor ()
      ensures sources == [] && queryHistory == []
    {
      sources := [];
      queryHistory := [];
    }

    /** `add_source`: appends exactly one unflagged record holding the content's preview. */
    method AddSource(sourceType: string, content: string, relevance: Relevance, timestamp: string)
      modifies this
      ensures sources == old(sources) + [SourceContribution(sourceType, Preview(content), relevance, false, timestamp)]
      ensures queryHistory == old(queryHistory)
    {
      var preview := Preview(content);
      sources := sources + [SourceContribution(sourceType, preview, relevance, false, timestamp)];
    }

    /** `mark_used`: flips the flag of every record of the given type, in place. */
    method MarkUsed(sourceType: string)
      modifies this
      ensures sources == MarkedUsed(old(sources), sourceType)
      ensures queryHistory == old(queryHistory)
    {
      var i := 0;
      while i < |sources|
        invariant 0 <= i <= |sources| == |old(sources)|
        invariant forall k :: 0 <= k < i ==> sources[k] == Flag(old(sources)[k], sourceType)
        invariant forall k :: i <= k < |sources| ==> sources[k] == old(sources)[k]
        invariant queryHistory == old(queryHistory)
      {
        if sources[i].sourceType == sourceType {
          sources := sources[i := sources[i].(usedInContext := true)];
        }
        i := i + 1;
      }
    }

    /** `get_summary`: counts the records, the flagged ones and the records per type. */
    method GetSummary() returns (summary: Summary)
      ensures summary == SummaryOf(sources)
    {
      var s := sources;
      var used := 0;
      var i := 0;
      while i < |s|
        invariant 0 <= i <= |s|
        invariant used == CountUsed(s[..i])
      {
        SummaryStep(s, i);
        if s[i].usedInContext {
          used := used + 1;
        }
        i := i + 1;
      }
      var byType: Dict<string, nat> := [];
      i := 0;
      while i < |s|
        invariant 0 <= i <= |s|
        invariant byType == Tally(TypesOf(s[..i]))
      {
        SummaryStep(s, i);
        byType := Bump(byType, s[i].sourceType);
        i := i + 1;
      }
      assert s[..|s|] == s;
      summary := Summary(|s|, used, byType, s);
    }

    /** `log_query`: appends exactly one entry with the answer cut to 200 characters. */
    method LogQuery(question: string, answer: string, sourcesUsed: seq<string>, timestamp: string)
      modifies this
      ensures queryHistory == old(queryHistory) + [QueryLogEntry(timestamp, question, PyPrefix(answer, PreviewLength), sourcesUsed)]
      ensures sources == old(sources)
    {
      queryHistory := queryHistory + [QueryLogEntry(timestamp, question, PyPrefix(answer, PreviewLength), sourcesUsed)];
    }
  }
}

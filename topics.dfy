/** Key-topic extraction: the words of a transcript that occur most often, outside a fixed
    list of common words, ranked by frequency with ties broken by first occurrence. */
module Topics {
  import opened Text
  import opened OrderedDict

  /** The common words that never count as topics (`common_words`). */
  const CommonWords: seq<string> := [
    "the", "a", "an", "and", "or", "but", "in", "on", "at", "to", "for",
    "of", "with", "by", "from", "as", "is", "was", "are", "were", "been",
    "be", "have", "has", "had", "do", "does", "did", "will", "would",
    "could", "should", "may", "might", "can", "this", "that", "these",
    "those", "i", "you", "he", "she", "it", "we", "they", "what", "which",
    "who", "when", "where", "why", "how", "so", "than", "too", "very",
    "just", "now", "get", "got", "like", "know", "think", "going", "want"]

  /** `w in l`, by recursion, so that the verifier looks the word list up one entry at
      a time instead of comparing `w` with every word at once. */
  predicate Listed(w: string, l: seq<string>)
    decreases |l|
  {
    l != [] && (l[0] == w || Listed(w, l[1..]))
  }

  predicate IsCommonWord(w: string) {
    Listed(w, CommonWords)
  }

  /** The number of topics `enrich` asks for. */
  const DefaultMaxTopics := 3

  // ---------- tokenising: re.findall(r'\b[a-zA-Z]{4,}\b', ...) ----------

  /** A regular-expression word character (`\w`), restricted to ASCII. */
  predicate IsWordChar(c: char) {
    IsAsciiLower(c) || IsAsciiUpper(c) || '0' <= c <= '9' || c == '_'
  }

  predicate IsAsciiLetter(c: char) { IsAsciiLower(c) || IsAsciiUpper(c) }

  /** A word the pattern matches: four or more ASCII letters. */
  predicate IsTopicWord(w: string) {
    |w| >= 4 && forall k :: 0 <= k < |w| ==> IsAsciiLetter(w[k])
  }

  /** The length of the run of word characters that starts `s`. */
  function RunLength(s: string): (n: nat)
    ensures n <= |s|
    ensures forall k :: 0 <= k < n ==> IsWordChar(s[k])
    ensures n < |s| ==> !IsWordChar(s[n])
  {
    if s == [] || !IsWordChar(s[0]) then 0 else 1 + RunLength(s[1..])
  }

  /** The matches of `\b[a-zA-Z]{4,}\b` in `s`, in order: a match needs a word boundary on
      both sides, so it is a whole run of word characters made only of letters. */
  function Words(s: string): seq<string>
    decreases |s|
  {
    if s == [] then []
    else if !IsWordChar(s[0]) then Words(s[1..])
    else
      var n := RunLength(s);
      (if IsTopicWord(s[..n]) then [s[..n]] else []) + Words(s[n..])
  }

  /** Every match is a topic-shaped word, lower-case when the text has no upper case. */
  lemma {:induction false} WordsShape(s: string)
    ensures forall i :: 0 <= i < |Words(s)| ==> IsTopicWord(Words(s)[i])
    ensures (forall k :: 0 <= k < |s| ==> !IsAsciiUpper(s[k])) ==>
      forall i, k :: 0 <= i < |Words(s)| && 0 <= k < |Words(s)[i]| ==> IsAsciiLower(Words(s)[i][k])
    decreases |s|
  {
    if s != [] {
      if !IsWordChar(s[0]) {
        WordsShape(s[1..]);
      } else {
        var n := RunLength(s);
        WordsShape(s[n..]);
        var head := if IsTopicWord(s[..n]) then [s[..n]] else [];
        assert Words(s) == head + Words(s[n..]);
        if head != [] {
          assert forall k :: 0 <= k < n ==> head[0][k] == s[k];
        }
      }
    }
  }

  lemma {:induction false} RunStopsInside(a: string, b: string)
    requires |a| > 0 && !IsWordChar(a[|a| - 1])
    ensures RunLength(a + b) == RunLength(a)
  {
    if IsWordChar(a[0]) {
      assert (a + b)[1..] == a[1..] + b;
      RunStopsInside(a[1..], b);
    }
  }

  lemma {:induction false} RunOfWord(w: string, b: string)
    requires forall k :: 0 <= k < |w| ==> IsWordChar(w[k])
    requires b == [] || !IsWordChar(b[0])
    ensures RunLength(w + b) == |w|
  {
    if w != [] {
      assert (w + b)[1..] == w[1..] + b;
      RunOfWord(w[1..], b);
    }
  }

  /** Text that ends at a non-word character tokenises apart from what follows it. */
  lemma {:induction false} WordsSplit(a: string, b: string)
    requires a == [] || !IsWordChar(a[|a| - 1])
    ensures Words(a + b) == Words(a) + Words(b)
    decreases |a|, 1
  {
    if a == [] {
      assert a + b == b;
    } else if !IsWordChar(a[0]) {
      assert (a + b)[1..] == a[1..] + b;
      WordsSplit(a[1..], b);
    } else {
      WordsSplitAtRun(a, b);
    }
  }

  lemma {:induction false} WordsSplitAtRun(a: string, b: string)
    requires a != [] && IsWordChar(a[0]) && !IsWordChar(a[|a| - 1])
    ensures Words(a + b) == Words(a) + Words(b)
    decreases |a|, 0
  {
    var s := a + b;
    RunStopsInside(a, b);
    var n := RunLength(a);
    assert 0 < n < |a|;
    assert s[..n] == a[..n];
    assert s[n..] == a[n..] + b;
    WordsSplit(a[n..], b);
  }

  lemma WordAlone(w: string, b: string)
    requires IsTopicWord(w)
    requires b == [] || !IsWordChar(b[0])
    ensures Words(w + b) == [w] + Words(b)
  {
    RunOfWord(w, b);
    assert (w + b)[0] == w[0];
    assert (w + b)[..|w|] == w;
    assert (w + b)[|w|..] == b;
  }

  /** The pattern finds a word exactly where it stands between non-word characters:
      tokenising `a + w + b` finds the tokens of `a`, then `w`, then those of `b`. */
  lemma WordFound(a: string, w: string, b: string)
    requires IsTopicWord(w)
    requires a == [] || !IsWordChar(a[|a| - 1])
    requires b == [] || !IsWordChar(b[0])
    ensures Words(a + w + b) == Words(a) + [w] + Words(b)
  {
    var tail := w + b;
    assert a + w + b == a + tail;
    WordsSplit(a, tail);
    WordAlone(w, b);
    Regroup(Words(a), w, Words(b));
  }

  /** Regrouping a concatenation; called where the solver would otherwise prove it inside
      a large proof context. */
  lemma Regroup<T>(x: seq<T>, y: T, z: seq<T>)
    ensures x + ([y] + z) == x + [y] + z
  {
  }

  /** The words of the lower-cased transcript. */
  function Tokens(text: string): seq<string> {
    Words(Lower(text))
  }

  /** Every token is four or more lower-case ASCII letters. */
  lemma TokensShape(text: string)
    ensures forall i :: 0 <= i < |Tokens(text)| ==> IsTopicWord(Tokens(text)[i])
    ensures forall i, k :: 0 <= i < |Tokens(text)| && 0 <= k < |Tokens(text)[i]| ==>
      IsAsciiLower(Tokens(text)[i][k])
  {
    WordsShape(Lower(text));
  }

  // ---------- counting ----------

  /** The elements of `ws` outside `drop`, in order. */
  function Without<T(==,!new)>(ws: seq<T>, drop: T -> bool): (r: seq<T>)
    ensures forall w :: w in r <==> w in ws && !drop(w)
    ensures forall w :: multiset(r)[w] == if drop(w) then 0 else multiset(ws)[w]
  {
    if ws == [] then []
    else
      var init, w := ws[..|ws| - 1], ws[|ws| - 1];
      assert ws == init + [w];
      Without(init, drop) + (if drop(w) then [] else [w])
  }

  /** Dropping elements keeps the order of first occurrence of the others. */
  lemma {:induction false} WithoutOrder<T(!new)>(ws: seq<T>, drop: T -> bool, a: T, b: T)
    requires a in ws && b in ws && !drop(a) && !drop(b)
    ensures FirstIndex(Without(ws, drop), a) < FirstIndex(Without(ws, drop), b) <==>
      FirstIndex(ws, a) < FirstIndex(ws, b)
    decreases |ws|
  {
    var init, w := ws[..|ws| - 1], ws[|ws| - 1];
    assert ws == init + [w];
    var ns := Without(init, drop);
    FirstIndexAppend(init, w, a);
    FirstIndexAppend(init, w, b);
    if drop(w) {
      assert Without(ws, drop) == ns;
      WithoutOrder(init, drop, a, b);
    } else {
      assert Without(ws, drop) == ns + [w];
      FirstIndexAppend(ns, w, a);
      FirstIndexAppend(ns, w, b);
      if a in init && b in init {
        WithoutOrder(init, drop, a, b);
      }
    }
  }

  /** The words that are not common words, in order. */
  function NonStop(ws: seq<string>): seq<string> {
    Without(ws, IsCommonWord)
  }

  lemma WithoutStep<T(!new)>(ws: seq<T>, drop: T -> bool, w: T)
    ensures Without(ws + [w], drop) == Without(ws, drop) + (if drop(w) then [] else [w])
  {
    assert (ws + [w])[..|ws|] == ws;
  }

  lemma TallyStep<K(!new)>(ws: seq<K>, w: K)
    ensures Tally(ws + [w]) == Bump(Tally(ws), w)
  {
    assert (ws + [w])[..|ws|] == ws;
  }

  /** The word counts in `word_freq`, a dict ordered by first occurrence. */
  function Frequencies(words: seq<string>): Dict<string, nat> {
    Tally(NonStop(words))
  }

  // ---------- sorted(word_freq.items(), key=lambda x: x[1], reverse=True) ----------

  type Entry<K> = (K, nat)

  /** `a` comes before `b` in the stable descending sort of `d`'s items. */
  predicate Precedes<K(==)>(d: Dict<K, nat>, a: Entry<K>, b: Entry<K>) {
    a.1 > b.1 || (a.1 == b.1 && Pos(d, a.0) < Pos(d, b.0))
  }

  predicate Chain<K(==)>(d: Dict<K, nat>, s: seq<Entry<K>>) {
    forall i, j :: 0 <= i < j < |s| ==> Precedes(d, s[i], s[j])
  }

  /** Puts `x` before the first element whose count is not larger. */
  function InsertByCount<K(==,!new)>(x: Entry<K>, s: seq<Entry<K>>): (r: seq<Entry<K>>)
    ensures multiset(r) == multiset(s) + multiset{x}
    ensures forall e :: e in r <==> e == x || e in s
  {
    if s == [] || x.1 >= s[0].1 then [x] + s
    else
      assert s == [s[0]] + s[1..];
      [s[0]] + InsertByCount(x, s[1..])
  }

  /** The items of `d` sorted by descending count; equal counts keep their order in `d`. */
  function SortByCount<K(==,!new)>(d: seq<Entry<K>>): (r: seq<Entry<K>>)
    ensures multiset(r) == multiset(d)
    ensures |r| == |d|
  {
    if d == [] then []
    else
      assert d == [d[0]] + d[1..];
      InsertByCount(d[0], SortByCount(d[1..]))
  }

  lemma {:induction false} InsertKeepsChain<K(!new)>(d: Dict<K, nat>, x: Entry<K>, s: seq<Entry<K>>)
    requires Chain(d, s)
    requires forall e :: e in s ==> Pos(d, x.0) < Pos(d, e.0)
    ensures Chain(d, InsertByCount(x, s))
  {
    if s == [] {
    } else if x.1 >= s[0].1 {
      forall e | e in s ensures Precedes(d, x, e) {
        var m :| 0 <= m < |s| && s[m] == e;
        if m > 0 {
          assert Precedes(d, s[0], s[m]);
        }
      }
      ChainCons(d, x, s);
    } else {
      var t := s[1..];
      ChainTail(d, s);
      assert forall e :: e in t ==> e in s;
      InsertKeepsChain(d, x, t);
      var u := InsertByCount(x, t);
      forall e | e in u ensures Precedes(d, s[0], e) {
        if e != x {
          var m :| 0 <= m < |t| && t[m] == e;
          assert s[m + 1] == e;
        }
      }
      ChainCons(d, s[0], u);
    }
  }

  lemma ChainTail<K>(d: Dict<K, nat>, s: seq<Entry<K>>)
    requires Chain(d, s) && s != []
    ensures Chain(d, s[1..])
  {
    var t := s[1..];
    forall i, j | 0 <= i < j < |t| ensures Precedes(d, t[i], t[j]) {
      assert t[i] == s[i + 1] && t[j] == s[j + 1];
    }
  }

  lemma ChainCons<K>(d: Dict<K, nat>, h: Entry<K>, u: seq<Entry<K>>)
    requires Chain(d, u) && forall e :: e in u ==> Precedes(d, h, e)
    ensures Chain(d, [h] + u)
  {
    var r := [h] + u;
    forall i, j | 0 <= i < j < |r| ensures Precedes(d, r[i], r[j]) {
      assert r[j] == u[j - 1];
      if i > 0 {
        assert r[i] == u[i - 1];
      }
    }
  }

  lemma PosShift<K>(d: Dict<K, nat>, k: K)
    requires d != [] && k != d[0].0
    ensures Pos(d, k) == 1 + Pos(d[1..], k)
  {
    assert Keys(d) == [d[0].0] + Keys(d[1..]);
    assert Keys(d)[1..] == Keys(d[1..]);
  }

  /** The sort is stable and descending: consecutive items are ordered by `Precedes`. */
  lemma {:induction false} SortChain<K(!new)>(d: Dict<K, nat>)
    requires DistinctKeys(d)
    ensures Chain(d, SortByCount(d))
  {
    if d != [] {
      var rest := d[1..];
      assert DistinctKeys(rest) by {
        forall i, j | 0 <= i < j < |rest| ensures rest[i].0 != rest[j].0 {
          assert rest[i] == d[i + 1] && rest[j] == d[j + 1];
        }
      }
      SortChain(rest);
      var s := SortByCount(rest);
      forall e | e in rest ensures e.0 != d[0].0 {
        var m :| 0 <= m < |rest| && rest[m] == e;
        assert d[m + 1] == e;
      }
      assert forall e :: e in s ==> e in multiset(rest);
      assert Chain(d, s) by {
        forall i, j | 0 <= i < j < |s| ensures Precedes(d, s[i], s[j]) {
          assert s[i] in s && s[j] in s;
          assert s[i] in rest && s[j] in rest;
          PosShift(d, s[i].0);
          PosShift(d, s[j].0);
        }
      }
      forall e | e in s ensures Pos(d, d[0].0) < Pos(d, e.0) {
        assert e in rest;
        PosShift(d, e.0);
        assert Keys(d)[0] == d[0].0;
      }
      InsertKeepsChain(d, d[0], s);
    }
  }

  // ---------- the result ----------

  lemma KeysOfPrefix(s: seq<Entry<string>>, n: int)
    ensures |Keys(PyPrefix(s, n))| <= |s|
    ensures forall k :: 0 <= k < |Keys(PyPrefix(s, n))| ==> Keys(PyPrefix(s, n))[k] == s[k].0
  {
  }

  /** What `extract_key_topics(text, maxTopics)` returns. */
  function KeyTopics(text: string, maxTopics: int): seq<string> {
    Keys(PyPrefix(SortByCount(Frequencies(Tokens(text))), maxTopics))
  }

  /** One turn of the counting loop, as the specification functions see it. */
  lemma FrequencyStep(words: seq<string>, i: nat)
    requires i < |words|
    ensures Tally(NonStop(words[..i + 1])) ==
      if IsCommonWord(words[i]) then Tally(NonStop(words[..i])) else Bump(Tally(NonStop(words[..i])), words[i])
  {
    var w, prev := words[i], words[..i];
    assert words[..i + 1] == prev + [w];
    WithoutStep(prev, IsCommonWord, w);
    if !IsCommonWord(w) {
      assert NonStop(words[..i + 1]) == NonStop(prev) + [w];
      TallyStep(NonStop(prev), w);
    } else {
      assert NonStop(words[..i + 1]) == NonStop(prev);
    }
  }

  /** `extract_key_topics`: counts the non-common words in one pass, then ranks them. */
  method ExtractKeyTopics(transcript: string, maxTopics: int) returns (topics: seq<string>)
    ensures topics == KeyTopics(transcript, maxTopics)
  {
    var words := Tokens(transcript);
    var wordFreq: Dict<string, nat> := [];
    for i := 0 to |words|
      invariant wordFreq == Tally(NonStop(words[..i]))
    {
      var w := words[i];
      FrequencyStep(words, i);
      if !IsCommonWord(w) {
        wordFreq := Bump(wordFreq, w);
      }
    }
    assert words[..|words|] == words;
    var sortedWords := SortByCount(wordFreq);
    topics := Keys(PyPrefix(sortedWords, maxTopics));
    assert wordFreq == Frequencies(Tokens(transcript));
    assert sortedWords == SortByCount(Frequencies(Tokens(transcript)));
    assert topics == KeyTopics(transcript, maxTopics);
  }

  // ---------- what the ranking means ----------

  /** How often a word occurs among the transcript's tokens. */
  function Freq(text: string, w: string): nat {
    multiset(Tokens(text))[w]
  }

  /** A word that can be a topic: one of the tokens, and not a common word. */
  predicate IsCandidate(text: string, w: string) {
    w in Tokens(text) && !IsCommonWord(w)
  }

  /** `a` ranks strictly ahead of `b`: it occurs more often, or as often and earlier. */
  predicate Ranks(text: string, a: string, b: string) {
    Freq(text, a) > Freq(text, b) ||
    (Freq(text, a) == Freq(text, b) && FirstIndex(Tokens(text), a) < FirstIndex(Tokens(text), b))
  }

  lemma EntryFacts(text: string, e: Entry<string>)
    requires e in Frequencies(Tokens(text))
    ensures IsCandidate(text, e.0) && e.1 == Freq(text, e.0)
  {
    var d := Frequencies(Tokens(text));
    var m :| 0 <= m < |d| && d[m] == e;
    PosOfEntry(d, m);
    assert Keys(d)[m] == e.0;
  }

  lemma CandidateEntry(text: string, w: string)
    requires IsCandidate(text, w)
    ensures (w, Freq(text, w)) in Frequencies(Tokens(text))
  {
    var d := Frequencies(Tokens(text));
    assert w in Keys(d);
    var m :| 0 <= m < |d| && Keys(d)[m] == w;
    PosOfEntry(d, m);
  }

  lemma PrecedesIsRanks(text: string, a: Entry<string>, b: Entry<string>)
    requires a in Frequencies(Tokens(text)) && b in Frequencies(Tokens(text))
    ensures Precedes(Frequencies(Tokens(text)), a, b) <==> Ranks(text, a.0, b.0)
  {
    EntryFacts(text, a);
    EntryFacts(text, b);
    var toks := Tokens(text);
    TallyOrder(NonStop(toks), a.0, b.0);
    WithoutOrder(toks, IsCommonWord, a.0, b.0);
  }

  /** The sorted items are items of the tally, ordered by `Precedes`. */
  lemma SortedFacts(text: string)
    ensures var d := Frequencies(Tokens(text));
      Chain(d, SortByCount(d)) && forall e :: e in SortByCount(d) ==> e in d
  {
    var d := Frequencies(Tokens(text));
    SortChain(d);
    forall e | e in SortByCount(d) ensures e in d {
      assert e in multiset(SortByCount(d));
    }
  }

  /** Where an element of `t` sits in a permutation `s` of it. */
  lemma IndexInPermutation<T>(s: seq<T>, t: seq<T>, x: T) returns (j: nat)
    requires x in t && multiset(s) == multiset(t)
    ensures j < |s| && s[j] == x
  {
    assert x in multiset(t);
    assert x in s;
    j :| 0 <= j < |s| && s[j] == x;
  }

  /** A candidate's item sits somewhere in the sorted list. */
  lemma CandidateSorted(text: string, w: string) returns (j: nat)
    requires IsCandidate(text, w)
    ensures var s := SortByCount(Frequencies(Tokens(text)));
      j < |s| && s[j] == (w, Freq(text, w))
  {
    var d := Frequencies(Tokens(text));
    CandidateEntry(text, w);
    j := IndexInPermutation(SortByCount(d), d, (w, Freq(text, w)));
  }

  /** Every topic is a candidate. */
  lemma TopicsAreCandidates(text: string, maxTopics: int)
    ensures forall i :: 0 <= i < |KeyTopics(text, maxTopics)| ==> IsCandidate(text, KeyTopics(text, maxTopics)[i])
  {
    var s := SortByCount(Frequencies(Tokens(text)));
    var r := KeyTopics(text, maxTopics);
    SortedFacts(text);
    forall i | 0 <= i < |r| ensures IsCandidate(text, r[i]) {
      assert PyPrefix(s, maxTopics)[i] == s[i];
      EntryFacts(text, s[i]);
    }
  }

  /** The topics are listed best first, each once. */
  lemma TopicsInOrder(text: string, maxTopics: int)
    ensures var r := KeyTopics(text, maxTopics);
      forall i, j :: 0 <= i < j < |r| ==> Ranks(text, r[i], r[j]) && r[i] != r[j]
  {
    var s := SortByCount(Frequencies(Tokens(text)));
    var r := KeyTopics(text, maxTopics);
    SortedFacts(text);
    forall i, j | 0 <= i < j < |r| ensures Ranks(text, r[i], r[j]) && r[i] != r[j] {
      assert PyPrefix(s, maxTopics)[i] == s[i] && PyPrefix(s, maxTopics)[j] == s[j];
      PrecedesIsRanks(text, s[i], s[j]);
    }
  }

  lemma BeatsOne(text: string, maxTopics: int, i: nat, w: string)
    requires i < |KeyTopics(text, maxTopics)|
    requires IsCandidate(text, w) && w !in KeyTopics(text, maxTopics)
    ensures Ranks(text, KeyTopics(text, maxTopics)[i], w)
  {
    var d := Frequencies(Tokens(text));
    var s := SortByCount(d);
    var p := PyPrefix(s, maxTopics);
    var r := KeyTopics(text, maxTopics);
    var j := CandidateSorted(text, w);
    KeysOfPrefix(s, maxTopics);
    assert r == Keys(p);
    assert j >= |p|;
    SortedFacts(text);
    assert Precedes(d, s[i], s[j]);
    assert s[i] in s && s[j] in s;
    PrecedesIsRanks(text, s[i], s[j]);
    assert r[i] == s[i].0;
  }

  /** Every candidate left out ranks behind every topic. */
  lemma TopicsBeatTheRest(text: string, maxTopics: int)
    ensures var r := KeyTopics(text, maxTopics);
      forall i, w :: 0 <= i < |r| && IsCandidate(text, w) && w !in r ==> Ranks(text, r[i], w)
  {
    var r := KeyTopics(text, maxTopics);
    forall i, w | 0 <= i < |r| && IsCandidate(text, w) && w !in r ensures Ranks(text, r[i], w) {
      BeatsOne(text, maxTopics, i, w);
    }
  }

  /** At most `maxTopics` topics, and fewer only when every candidate is a topic. */
  lemma TopicsCount(text: string, maxTopics: int)
    ensures var r := KeyTopics(text, maxTopics);
      (0 <= maxTopics ==> |r| <= maxTopics) &&
      (0 <= maxTopics && |r| < maxTopics ==> forall w :: IsCandidate(text, w) ==> w in r)
  {
    var s := SortByCount(Frequencies(Tokens(text)));
    var r := KeyTopics(text, maxTopics);
    if 0 <= maxTopics && |r| < maxTopics {
      forall w | IsCandidate(text, w) ensures w in r {
        var j := CandidateSorted(text, w);
        assert PyPrefix(s, maxTopics)[j] == s[j];
        assert r[j] == w;
      }
    }
  }

  /** The topics are candidates, listed best first, and they are the best ones: every
      candidate left out ranks behind every topic, and fewer than `maxTopics` topics
      means no candidate was left out. */
  lemma KeyTopicsRanked(text: string, maxTopics: int)
    ensures var r := KeyTopics(text, maxTopics);
      (forall i :: 0 <= i < |r| ==> IsCandidate(text, r[i])) &&
      (forall i, j :: 0 <= i < j < |r| ==> Ranks(text, r[i], r[j]) && r[i] != r[j]) &&
      (forall i, w :: 0 <= i < |r| && IsCandidate(text, w) && w !in r ==> Ranks(text, r[i], w)) &&
      (0 <= maxTopics ==> |r| <= maxTopics) &&
      (0 <= maxTopics && |r| < maxTopics ==> forall w :: IsCandidate(text, w) ==> w in r)
  {
    TopicsAreCandidates(text, maxTopics);
    TopicsInOrder(text, maxTopics);
    TopicsBeatTheRest(text, maxTopics);
    TopicsCount(text, maxTopics);
  }

  /** Every topic is four or more lower-case ASCII letters. */
  lemma TopicShape(text: string, maxTopics: int, i: nat)
    requires i < |KeyTopics(text, maxTopics)|
    ensures IsTopicWord(KeyTopics(text, maxTopics)[i])
    ensures forall k :: 0 <= k < |KeyTopics(text, maxTopics)[i]| ==> IsAsciiLower(KeyTopics(text, maxTopics)[i][k])
  {
    KeyTopicsRanked(text, maxTopics);
    TokensShape(text);
    var w := KeyTopics(text, maxTopics)[i];
    var toks := Tokens(text);
    var m :| 0 <= m < |toks| && toks[m] == w;
  }
}

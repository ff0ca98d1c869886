/** `extract_video_id`: the video identifier inside the three YouTube URL shapes. */
module VideoId {
  import opened Wrappers
  import opened Text

  const ShortHost: string := "youtu.be/"
  const WatchPath: string := "youtube.com/watch"
  const EmbedPath: string := "youtube.com/embed/"

  /** The `ValueError` the function raises. */
  datatype UrlError = InvalidUrl

  /** The query of a URL as `urlparse` splits it: after the first `?` of the part that
      precedes the fragment, or empty. */
  function QueryOf(url: string): string {
    var rest := Before(url, "#");
    if Contains(rest, "?") then After(rest, "?") else ""
  }

  /** `parse_qs` keeps a field only when it has an `=` and a non-empty value. */
  predicate KeptField(f: string, name: string) {
    Contains(f, "=") && Before(f, "=") == name && After(f, "=") != ""
  }

  /** The index of the first field kept for `name`, or the number of fields when none is. */
  function FirstKept(fields: seq<string>, name: string): (i: nat)
    ensures i <= |fields|
    ensures forall j :: 0 <= j < i ==> !KeptField(fields[j], name)
    ensures i < |fields| ==> KeptField(fields[i], name)
  {
    if fields == [] then 0
    else if KeptField(fields[0], name) then 0
    else
      var i := FirstKept(fields[1..], name);
      assert forall j :: 1 <= j <= i ==> fields[j] == fields[1..][j - 1];
      i + 1
  }

  /** The first kept value for `name`: found exactly when some field is kept for it, and
      then the value of the first such field. */
  function FirstValue(fields: seq<string>, name: string): (r: Option<string>)
    ensures r.None? <==> forall i :: 0 <= i < |fields| ==> !KeptField(fields[i], name)
    ensures r.Some? ==>
      exists i :: (0 <= i < |fields| && KeptField(fields[i], name) && r.value == After(fields[i], "=") &&
        forall j :: 0 <= j < i ==> !KeptField(fields[j], name))
    ensures r.Some? ==> r.value != ""
  {
    var i := FirstKept(fields, name);
    if i < |fields| then Some(After(fields[i], "=")) else None
  }

  /** `parse_qs(query).get(name)[0]`, or None when `get` finds no list. */
  function QueryParam(query: string, name: string): Option<string> {
    FirstValue(SplitOn(query, '&'), name)
  }

  /** The identifier of a `youtu.be/`, `youtube.com/watch` or `youtube.com/embed/` URL,
      tried in that order; any other URL, and a watch URL without a non-empty `v`, is
      refused. A short URL keeps the longest start of what follows `youtu.be/` that holds
      no `?` or `&`; an embed URL the longest start of what follows `youtube.com/embed/`
      that holds no `?`; a watch URL its first kept `v` value. */
  function ExtractVideoId(url: string): (r: Result<string, UrlError>)
    ensures Contains(url, ShortHost) ==> r.Ok? && '?' !in r.value && '&' !in r.value
    ensures Contains(url, ShortHost) ==>
      var field := SecondField(url, ShortHost);
      r.value <= field && (r.value == field || field[|r.value|] == '?' || field[|r.value|] == '&')
    ensures !Contains(url, ShortHost) && Contains(url, WatchPath) ==>
      (r.Ok? <==> QueryParam(QueryOf(url), "v").Some?) && (r.Ok? ==> r.value != "") &&
      (r.Ok? ==> r.value == QueryParam(QueryOf(url), "v").value)
    ensures !Contains(url, ShortHost) && !Contains(url, WatchPath) ==>
      (r.Ok? <==> Contains(url, EmbedPath)) && (r.Ok? ==> '?' !in r.value)
    ensures !Contains(url, ShortHost) && !Contains(url, WatchPath) && Contains(url, EmbedPath) ==>
      var field := SecondField(url, EmbedPath);
      r.value <= field && (r.value == field || field[|r.value|] == '?')
  {
    if Contains(url, ShortHost) then
      var field := SecondField(url, ShortHost);
      var id := Before(Before(field, "?"), "&");
      NoSeparatorBefore(Before(field, "?"), '&');
      NoSeparatorBefore(field, '?');
      CutChar(field, '?');
      CutChar(Before(field, "?"), '&');
      Ok(id)
    else if Contains(url, WatchPath) then
      match QueryParam(QueryOf(url), "v")
      case Some(v) => Ok(v)
      case None => Err(InvalidUrl)
    else if Contains(url, EmbedPath) then
      NoSeparatorBefore(SecondField(url, EmbedPath), '?');
      CutChar(SecondField(url, EmbedPath), '?');
      Ok(Before(SecondField(url, EmbedPath), "?"))
    else
      Err(InvalidUrl)
  }

  /** What precedes the first `c` is all of `s`, or is followed by `c`. */
  lemma CutChar(s: string, c: char)
    ensures Before(s, [c]) == s || s[|Before(s, [c])|] == c
  {
    var r := Before(s, [c]);
    if r != s {
      assert s[|r|..|r| + 1] == [c];
    }
  }

  /** A start of `s` that holds no separator and is all of `s` or followed by a separator
      is unique: it is the text before the first separator. */
  lemma UniqueCut(s: string, a: string, b: string, seps: set<char>)
    requires a <= s && (a == s || s[|a|] in seps) && forall k :: 0 <= k < |a| ==> a[k] !in seps
    requires b <= s && (b == s || s[|b|] in seps) && forall k :: 0 <= k < |b| ==> b[k] !in seps
    ensures a == b
  {
  }

  /** What precedes the first `c`, and every prefix of it, holds no `c`. */
  lemma NoSeparatorBefore(s: string, c: char)
    ensures c !in Before(s, [c])
    ensures forall p :: p <= Before(s, [c]) ==> c !in p
  {
    var r := Before(s, [c]);
    forall k | 0 <= k < |r| ensures r[k] != c {
      assert s[k] == r[k];
      assert !OccursAt(s, [c], k);
      assert s[k..k + 1] == [s[k]];
    }
  }

  // ---------- the URL shapes, and extraction as their inverse ----------

  /** The characters YouTube uses in video identifiers. */
  predicate IsIdChar(c: char) {
    ('a' <= c <= 'z') || ('A' <= c <= 'Z') || ('0' <= c <= '9') || c == '-' || c == '_'
  }

  predicate IsId(id: string) {
    forall k :: 0 <= k < |id| ==> IsIdChar(id[k])
  }

  /** The characters of a query: identifier characters and the field punctuation. */
  predicate IsQueryChar(c: char) {
    IsIdChar(c) || c == '=' || c == '&' || c == '?'
  }

  /** Nothing, or a query led by `?`. */
  predicate IsQueryTail(q: string) {
    q == [] || (q[0] == '?' && forall k :: 1 <= k < |q| ==> IsQueryChar(q[k]))
  }

  /** Nothing, or a query led by `?` or by `&`: what a short URL may carry. */
  predicate IsShortTail(q: string) {
    q == [] || ((q[0] == '?' || q[0] == '&') && forall k :: 1 <= k < |q| ==> IsQueryChar(q[k]))
  }

  const ShortPrefix: string := "https://" + ShortHost
  const WatchBare: string := "https://www." + WatchPath + "?"
  const EmbedPrefix: string := "https://www." + EmbedPath

  function ShortUrl(id: string, query: string): string { ShortPrefix + id + query }

  function WatchQueryUrl(query: string): string { WatchBare + query }

  function WatchUrl(id: string): string { WatchQueryUrl("v=" + id) }

  function EmbedUrl(id: string, query: string): string { EmbedPrefix + id + query }

  lemma ShortPrefixFacts()
    ensures Find(ShortPrefix, ShortHost) == Some(8)
  {
    var p := ShortPrefix;
    assert p[8..] == ShortHost;
    assert OccursAt(p, ShortHost, 8);
    forall j: nat | j < 8 ensures !OccursAt(p, ShortHost, j) {
      Mismatch(p, ShortHost, j, 0);
    }
    FindIsFirst(p, ShortHost, 8);
  }

  lemma WatchBareFacts()
    ensures Find(WatchBare, ShortHost) == None
    ensures OccursAt(WatchBare, WatchPath, 12)
    ensures |WatchBare| == 30 && WatchBare[29] == '?'
    ensures forall j: nat :: j < 29 ==> WatchBare[j] != '?'
    ensures '#' !in WatchBare
  {
    WatchBareNoShortHost();
    assert WatchBare[12..29] == WatchPath;
  }

  lemma WatchBareNoShortHost()
    ensures Find(WatchBare, ShortHost) == None
  {
    var p := WatchBare;
    forall j: nat ensures !OccursAt(p, ShortHost, j) {
      if j + 9 > |p| || p[j + 4] != 'u' { Mismatch(p, ShortHost, j, 4); }
      else { Mismatch(p, ShortHost, j, 5); }
    }
  }

  lemma EmbedPrefixFacts()
    ensures Find(EmbedPrefix, ShortHost) == None
    ensures Find(EmbedPrefix, EmbedPath) == Some(12)
  {
    var p := EmbedPrefix;
    forall j: nat ensures !OccursAt(p, ShortHost, j) {
      if j + 9 > |p| || p[j + 4] != 'u' { Mismatch(p, ShortHost, j, 4); }
      else { Mismatch(p, ShortHost, j, 5); }
    }
    assert p[12..] == EmbedPath;
    assert OccursAt(p, EmbedPath, 12);
    forall j: nat | j < 12 ensures !OccursAt(p, EmbedPath, j) {
      Mismatch(p, EmbedPath, j, 0);
    }
    FindIsFirst(p, EmbedPath, 12);
  }

  /** An embed URL holds no watch path: `/` is only found in the prefix, and the prefix
      has none. */
  lemma EmbedHasNoWatchPath(tail: string)
    requires '/' !in tail
    ensures !Contains(EmbedPrefix + tail, WatchPath)
  {
    var s := EmbedPrefix + tail;
    var p := EmbedPrefix;
    forall j: nat ensures !OccursAt(s, WatchPath, j) {
      if j + |WatchPath| > |s| {
        Mismatch(s, WatchPath, j, 0);
      } else if j < |p| && j != 12 {
        assert s[j] == p[j];
        Mismatch(s, WatchPath, j, 0);
      } else if j == 12 {
        assert s[24] == p[24];
        Mismatch(s, WatchPath, j, 12);
      } else {
        assert s[j + 11] in tail;
        Mismatch(s, WatchPath, j, 11);
      }
    }
  }

  lemma TailFacts(id: string, query: string)
    requires IsId(id) && IsShortTail(query)
    ensures '/' !in id + query && '.' !in id + query && '#' !in id + query
    ensures forall k :: 0 <= k < |id| ==> id[k] != '?' && id[k] != '&'
  {
    assert forall k :: 0 <= k < |id + query| ==> (id + query)[k] == (if k < |id| then id[k] else query[k - |id|]);
  }

  /** The identifier is the unique cut of `id + query` at the separators that lead the
      query. */
  lemma IdIsCut(id: string, query: string, seps: set<char>)
    requires IsId(id) && IsShortTail(query) && '?' in seps && (query != [] ==> query[0] in seps)
    requires forall c :: c in seps ==> c == '?' || c == '&'
    ensures id <= id + query && (id == id + query || (id + query)[|id|] in seps)
    ensures forall k :: 0 <= k < |id| ==> id[k] !in seps
  {
    TailFacts(id, query);
    if query == [] {
      assert id + query == id;
    }
  }

  lemma ShortField(id: string, query: string)
    requires IsId(id) && IsShortTail(query)
    ensures Contains(ShortUrl(id, query), ShortHost)
    ensures SecondField(ShortUrl(id, query), ShortHost) == id + query
  {
    var url := ShortUrl(id, query);
    TailFacts(id, query);
    ShortPrefixFacts();
    assert url == ShortPrefix + (id + query);
    FindInPrefix(ShortPrefix, id + query, ShortHost);
    var rest := After(url, ShortHost);
    assert url == url[..8] + ShortHost + rest;
    assert rest == url[17..] == id + query;
    Absent(id + query, ShortHost, 5);
  }

  /** A short URL gives back its identifier, whatever `?`- or `&`-led query follows it. */
  lemma ShortUrlRoundTrip(id: string, query: string)
    requires IsId(id) && IsShortTail(query)
    ensures ExtractVideoId(ShortUrl(id, query)) == Ok(id)
  {
    var url := ShortUrl(id, query);
    ShortField(id, query);
    var r := ExtractVideoId(url);
    IdIsCut(id, query, {'?', '&'});
    UniqueCut(id + query, r.value, id, {'?', '&'});
  }

  /** A watch URL's query is everything after its `?`, when no `/` or `#` follows. */
  lemma WatchQueryBranch(query: string)
    requires '/' !in query && '#' !in query
    ensures !Contains(WatchQueryUrl(query), ShortHost) && Contains(WatchQueryUrl(query), WatchPath)
    ensures QueryOf(WatchQueryUrl(query)) == query
  {
    var url := WatchQueryUrl(query);
    WatchBareFacts();
    FindInPrefix(WatchBare, query, ShortHost);
    assert url[12..29] == WatchPath;
    assert OccursAt(url, WatchPath, 12);
    assert '#' !in url by {
      assert forall k :: 0 <= k < |url| ==> url[k] == (if k < 30 then WatchBare[k] else query[k - 30]);
    }
    Absent(url, "#", 0);
    assert OccursAt(url, "?", 29);
    forall j: nat | j < 29 ensures !OccursAt(url, "?", j) {
      assert url[j] == WatchBare[j];
      Mismatch(url, "?", j, 0);
    }
    FindIsFirst(url, "?", 29);
    var q := After(url, "?");
    assert url == url[..29] + "?" + q;
    assert q == url[30..] == query;
  }

  /** A watch URL gives back the first kept `v` value of its query, and is refused when
      the query has none. */
  lemma WatchQueryRoundTrip(query: string)
    requires '/' !in query && '#' !in query
    ensures ExtractVideoId(WatchQueryUrl(query)).Ok? <==> QueryParam(query, "v").Some?
    ensures QueryParam(query, "v").Some? ==> ExtractVideoId(WatchQueryUrl(query)) == Ok(QueryParam(query, "v").value)
  {
    WatchQueryBranch(query);
  }

  /** A watch URL whose query is `&`-joined fields gives back the first of them that
      `parse_qs` keeps for `v`, whatever fields come before or after it. */
  lemma WatchFieldsRoundTrip(fields: seq<string>)
    requires fields != []
    requires forall k :: 0 <= k < |fields| ==> '&' !in fields[k] && '/' !in fields[k] && '#' !in fields[k]
    ensures ExtractVideoId(WatchQueryUrl(Join(fields, "&"))).Ok? <==> FirstValue(fields, "v").Some?
    ensures FirstValue(fields, "v").Some? ==>
      ExtractVideoId(WatchQueryUrl(Join(fields, "&"))) == Ok(FirstValue(fields, "v").value)
  {
    JoinAvoids(fields, "&", '/');
    JoinAvoids(fields, "&", '#');
    SplitJoin(fields, '&');
    WatchQueryRoundTrip(Join(fields, "&"));
  }

  /** A watch URL gives back its identifier. */
  lemma WatchUrlRoundTrip(id: string)
    requires IsId(id) && id != []
    ensures ExtractVideoId(WatchUrl(id)) == Ok(id)
  {
    TailFacts(id, []);
    assert id + [] == id;
    var query := "v=" + id;
    assert '/' !in query && '#' !in query by {
      assert forall k :: 0 <= k < |query| ==> query[k] == (if k < 2 then "v="[k] else id[k - 2]);
    }
    WatchQueryRoundTrip(query);
    VParam(id);
  }

  lemma VParam(id: string)
    requires IsId(id) && id != []
    ensures QueryParam("v=" + id, "v") == Some(id)
  {
    TailFacts(id, []);
    var query := "v=" + id;
    assert query == "v" + ['='] + id;
    CutAtChar("v", '=', id);
    assert '&' !in query by {
      assert forall k :: 0 <= k < |query| ==> query[k] == (if k < 2 then "v="[k] else id[k - 2]);
    }
    SplitWithoutSeparator(query, '&');
  }

  lemma EmbedBranch(id: string, query: string)
    requires IsId(id) && IsQueryTail(query)
    ensures !Contains(EmbedUrl(id, query), ShortHost) && !Contains(EmbedUrl(id, query), WatchPath)
    ensures Contains(EmbedUrl(id, query), EmbedPath)
    ensures SecondField(EmbedUrl(id, query), EmbedPath) == id + query
  {
    EmbedHosts(id, query);
    EmbedRest(id, query);
  }

  /** Neither of the other two shapes is found in an embed URL. */
  lemma EmbedHosts(id: string, query: string)
    requires IsId(id) && IsQueryTail(query)
    ensures !Contains(EmbedUrl(id, query), ShortHost) && !Contains(EmbedUrl(id, query), WatchPath)
  {
    TailFacts(id, query);
    EmbedPrefixFacts();
    assert EmbedUrl(id, query) == EmbedPrefix + (id + query);
    FindInPrefix(EmbedPrefix, id + query, ShortHost);
    EmbedHasNoWatchPath(id + query);
  }

  /** What follows the first `youtube.com/embed/` of an embed URL is the identifier and
      its query. */
  lemma EmbedRest(id: string, query: string)
    requires IsId(id) && IsQueryTail(query)
    ensures Contains(EmbedUrl(id, query), EmbedPath)
    ensures SecondField(EmbedUrl(id, query), EmbedPath) == id + query
  {
    TailFacts(id, query);
    assert EmbedUrl(id, query) == EmbedPrefix + (id + query);
    EmbedTail(id + query);
  }

  lemma EmbedTail(tail: string)
    requires '/' !in tail && '.' !in tail
    ensures Contains(EmbedPrefix + tail, EmbedPath)
    ensures SecondField(EmbedPrefix + tail, EmbedPath) == tail
  {
    var url := EmbedPrefix + tail;
    EmbedPrefixFacts();
    FindInPrefix(EmbedPrefix, tail, EmbedPath);
    assert After(url, EmbedPath) == url[|EmbedPrefix|..] == tail;
    Absent(tail, EmbedPath, 7);
  }

  /** An embed URL gives back its identifier, whatever `?`-led query follows it. */
  lemma EmbedUrlRoundTrip(id: string, query: string)
    requires IsId(id) && IsQueryTail(query)
    ensures ExtractVideoId(EmbedUrl(id, query)) == Ok(id)
  {
    EmbedBranch(id, query);
    var r := ExtractVideoId(EmbedUrl(id, query));
    IdIsCut(id, query, {'?'});
    UniqueCut(id + query, r.value, id, {'?'});
  }

  /** The example from the project's documentation. */
  lemma ShortUrlExample()
    ensures ExtractVideoId("https://youtu.be/dQw4w9WgXcQ?t=5") == Ok("dQw4w9WgXcQ")
  {
    assert "https://youtu.be/dQw4w9WgXcQ?t=5" == ShortUrl("dQw4w9WgXcQ", "?t=5");
    ShortUrlRoundTrip("dQw4w9WgXcQ", "?t=5");
  }

  /** A short URL is also cut at an `&`. */
  lemma ShortUrlAmpersandExample()
    ensures ExtractVideoId("https://youtu.be/dQw4w9WgXcQ&t=5") == Ok("dQw4w9WgXcQ")
  {
    assert "https://youtu.be/dQw4w9WgXcQ&t=5" == ShortUrl("dQw4w9WgXcQ", "&t=5");
    ShortUrlRoundTrip("dQw4w9WgXcQ", "&t=5");
  }

  /** A `v` field after another field, and followed by one, is still found:
      `https://www.youtube.com/watch?feature=share&v=dQw4w9WgXcQ&t=42s`. */
  lemma WatchFieldsExample()
    ensures ExtractVideoId(WatchQueryUrl("feature=share&v=dQw4w9WgXcQ&t=42s")) == Ok("dQw4w9WgXcQ")
  {
    var fields := ExampleFields();
    ExampleFieldChars();
    ExampleJoin();
    ExampleFirstValue();
    WatchFieldsRoundTrip(fields);
  }

  function ExampleFields(): seq<string> { ["feature=share", "v=dQw4w9WgXcQ", "t=42s"] }

  lemma ExampleFieldChars()
    ensures forall k :: 0 <= k < |ExampleFields()| ==>
      '&' !in ExampleFields()[k] && '/' !in ExampleFields()[k] && '#' !in ExampleFields()[k]
  {
  }

  lemma ExampleJoin()
    ensures Join(ExampleFields(), "&") == "feature=share&v=dQw4w9WgXcQ&t=42s"
  {
    var fields := ExampleFields();
    assert fields[1..][1..] == ["t=42s"];
    assert Join(fields[1..], "&") == "v=dQw4w9WgXcQ" + "&" + "t=42s";
  }

  lemma ExampleFirstValue()
    ensures FirstValue(ExampleFields(), "v") == Some("dQw4w9WgXcQ")
  {
    var fields := ExampleFields();
    ExampleSkipped();
    ExampleKept();
    assert fields[1..][0] == fields[1];
    assert FirstKept(fields, "v") == 1;
  }

  lemma ExampleSkipped()
    ensures !KeptField(ExampleFields()[0], "v")
  {
    assert ExampleFields()[0] == "feature" + ['='] + "share";
    CutAtChar("feature", '=', "share");
  }

  lemma ExampleKept()
    ensures KeptField(ExampleFields()[1], "v") && After(ExampleFields()[1], "=") == "dQw4w9WgXcQ"
  {
    assert ExampleFields()[1] == "v" + ['='] + "dQw4w9WgXcQ";
    CutAtChar("v", '=', "dQw4w9WgXcQ");
  }

  lemma EmptyVParam()
    ensures QueryParam("v=", "v") == None
  {
    assert "v=" == "v" + ['='] + "";
    CutAtChar("v", '=', "");
    Absent("v=", "&", 0);
    SplitWithoutSeparator("v=", '&');
  }

  /** A watch URL whose `v` is empty is refused. */
  lemma EmptyWatchIdRefused(url: string)
    requires url == WatchUrl("")
    ensures ExtractVideoId(url).Err?
  {
    assert "v=" + "" == "v=";
    WatchQueryRoundTrip("v=");
    EmptyVParam();
  }
}

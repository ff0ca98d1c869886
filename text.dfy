/** The Python string operations the pipeline relies on (`in`, `split`, slicing,
    `join`, `strip`, `lower`, `upper`), over `string`, which is `seq<char>`. */
module Text {
  import opened Wrappers

  function Min(a: int, b: int): int { if a <= b then a else b }

  function Max(a: int, b: int): int { if a >= b then a else b }

  /** Python's slice `s[:n]`; a negative `n` counts from the end. */
  function PyPrefix<T>(s: seq<T>, n: int): (r: seq<T>)
    ensures |r| <= |s| && r == s[..|r|]
    ensures 0 <= n ==> |r| == Min(n, |s|)
    ensures n < 0 ==> |r| == Max(0, |s| + n)
  {
    if 0 <= n then (if n <= |s| then s[..n] else s)
    else if 0 <= |s| + n then s[..|s| + n]
    else []
  }

  // ---------- searching ----------

  /** `pat` occurs in `s` starting at index `i`. */
  predicate OccursAt(s: string, pat: string, i: nat) {
    i + |pat| <= |s| && s[i..i + |pat|] == pat
  }

  function FindFrom(s: string, pat: string, from: nat): (r: Option<nat>)
    requires from <= |s|
    ensures r.Some? ==> from <= r.value && OccursAt(s, pat, r.value)
    ensures r.Some? ==> forall j: nat :: from <= j < r.value ==> !OccursAt(s, pat, j)
    ensures r.None? ==> forall j: nat :: from <= j ==> !OccursAt(s, pat, j)
    decreases |s| - from
  {
    if OccursAt(s, pat, from) then Some(from)
    else if from == |s| then None
    else FindFrom(s, pat, from + 1)
  }

  /** The index of the first occurrence of `pat` in `s`, if there is one. */
  function Find(s: string, pat: string): (r: Option<nat>)
    ensures r.Some? ==> OccursAt(s, pat, r.value)
    ensures r.Some? ==> forall j: nat :: j < r.value ==> !OccursAt(s, pat, j)
    ensures r.None? ==> forall j: nat :: !OccursAt(s, pat, j)
  {
    FindFrom(s, pat, 0)
  }

  /** Python's `pat in s`. */
  predicate Contains(s: string, pat: string) {
    Find(s, pat).Some?
  }

  /** An occurrence with no earlier occurrence before it is the one `Find` reports. */
  lemma FindIsFirst(s: string, pat: string, i: nat)
    requires OccursAt(s, pat, i)
    requires forall j: nat :: j < i ==> !OccursAt(s, pat, j)
    ensures Find(s, pat) == Some(i)
  {
  }

  /** One differing character rules an occurrence out. */
  lemma Mismatch(s: string, pat: string, j: nat, k: nat)
    requires k < |pat| && (j + |pat| > |s| || s[j + k] != pat[k])
    ensures !OccursAt(s, pat, j)
  {
    if j + |pat| <= |s| {
      assert s[j..j + |pat|][k] == s[j + k];
    }
  }

  /** Python's `s.split(sep)[0]`: everything before the first `sep`, or all of `s`. */
  function Before(s: string, sep: string): (r: string)
    ensures r <= s
    ensures r == s || OccursAt(s, sep, |r|)
    ensures forall j: nat :: j < |r| ==> !OccursAt(s, sep, j)
  {
    match Find(s, sep)
    case Some(i) => s[..i]
    case None => s
  }

  /** Two strings with the same occurrences of `pat` have the same first one. */
  lemma FindSame(s1: string, s2: string, pat: string)
    requires forall j: nat :: OccursAt(s1, pat, j) <==> OccursAt(s2, pat, j)
    ensures Find(s1, pat) == Find(s2, pat)
  {
    var f1, f2 := Find(s1, pat), Find(s2, pat);
    if f1.Some? {
      assert OccursAt(s2, pat, f1.value);
    }
    if f2.Some? {
      assert OccursAt(s1, pat, f2.value);
    }
  }

  /** A pattern none of whose occurrences can end inside `suffix` (its last character is
      not in `suffix`) is found where it is found in `prefix`. */
  lemma FindInPrefix(prefix: string, suffix: string, pat: string)
    requires |pat| > 0 && pat[|pat| - 1] !in suffix
    ensures Find(prefix + suffix, pat) == Find(prefix, pat)
  {
    var s := prefix + suffix;
    forall j: nat ensures OccursAt(s, pat, j) <==> OccursAt(prefix, pat, j) {
      if j + |pat| <= |prefix| {
        assert s[j..j + |pat|] == prefix[j..j + |pat|];
      } else if j + |pat| <= |s| {
        assert s[j + |pat| - 1] == suffix[j + |pat| - 1 - |prefix|];
        Mismatch(s, pat, j, |pat| - 1);
      }
    }
    FindSame(s, prefix, pat);
  }

  /** A pattern with a character that `s` lacks does not occur in `s`. */
  lemma Absent(s: string, pat: string, k: nat)
    requires k < |pat| && pat[k] !in s
    ensures Find(s, pat) == None
  {
    forall j: nat ensures !OccursAt(s, pat, j) {
      if j + |pat| <= |s| {
        assert s[j + k] in s;
      }
      Mismatch(s, pat, j, k);
    }
  }

  /** Splitting at a one-character separator that the head does not contain. */
  lemma CutAtChar(a: string, c: char, b: string)
    requires c !in a
    ensures Before(a + [c] + b, [c]) == a
    ensures Contains(a + [c] + b, [c]) && After(a + [c] + b, [c]) == b
    ensures Before(a, [c]) == a
  {
    var s := a + [c] + b;
    assert OccursAt(s, [c], |a|) by { assert s[|a|..|a| + 1] == [c]; }
    forall j: nat | j < |a| ensures !OccursAt(s, [c], j) {
      assert s[j] == a[j];
      Mismatch(s, [c], j, 0);
    }
    FindIsFirst(s, [c], |a|);
    Absent(a, [c], 0);
    var r := After(s, [c]);
    assert s == a + [c] + r;
    assert s[|a| + 1..] == b && s[|a| + 1..] == r;
  }

  /** Everything after the first `sep` in `s`. */
  function After(s: string, sep: string): (r: string)
    requires Contains(s, sep)
    ensures s == Before(s, sep) + sep + r
  {
    var i := Find(s, sep).value;
    assert Before(s, sep) == s[..i] && s[i..i + |sep|] == sep;
    ThreeSlices(s, i, i + |sep|);
    s[i + |sep|..]
  }

  lemma ThreeSlices<T>(s: seq<T>, i: nat, j: nat)
    requires i <= j <= |s|
    ensures s == s[..i] + s[i..j] + s[j..]
  {
  }

  /** Python's `s.split(sep)[1]` when `sep` occurs in `s`: the text between the first
      and the second `sep`, or up to the end. */
  function SecondField(s: string, sep: string): string
    requires Contains(s, sep)
  {
    Before(After(s, sep), sep)
  }

  // ---------- join and split ----------

  /** Python's `sep.join(parts)`. */
  function Join(parts: seq<string>, sep: string): string
  {
    if parts == [] then ""
    else if |parts| == 1 then parts[0]
    else parts[0] + sep + Join(parts[1..], sep)
  }

  /** Python's `s.split(c)` for a one-character separator. */
  function SplitOn(s: string, c: char): (r: seq<string>)
    ensures |r| > 0
    decreases |s|
  {
    if s == [] then [""]
    else if s[0] == c then [""] + SplitOn(s[1..], c)
    else
      var rest := SplitOn(s[1..], c);
      [[s[0]] + rest[0]] + rest[1..]
  }

  lemma {:induction false} SplitWithoutSeparator(a: string, c: char)
    requires c !in a
    ensures SplitOn(a, c) == [a]
    decreases |a|
  {
    if a != [] {
      SplitWithoutSeparator(a[1..], c);
      assert [a[0]] + a[1..] == a;
    }
  }

  lemma {:induction false} SplitAtFirstSeparator(a: string, c: char, b: string)
    requires c !in a
    ensures SplitOn(a + [c] + b, c) == [a] + SplitOn(b, c)
    decreases |a|
  {
    if a == [] {
      assert (a + [c] + b)[1..] == b;
    } else {
      assert (a + [c] + b)[1..] == a[1..] + [c] + b;
      SplitAtFirstSeparator(a[1..], c, b);
      assert [a[0]] + a[1..] == a;
    }
  }

  /** Joining with a one-character separator that no part contains, then splitting on
      it, gives the parts back. */
  lemma {:induction false} SplitJoin(parts: seq<string>, c: char)
    requires |parts| > 0
    requires forall k :: 0 <= k < |parts| ==> c !in parts[k]
    ensures SplitOn(Join(parts, [c]), c) == parts
  {
    if |parts| == 1 {
      SplitWithoutSeparator(parts[0], c);
    } else {
      SplitJoin(parts[1..], c);
      SplitAtFirstSeparator(parts[0], c, Join(parts[1..], [c]));
      assert [parts[0]] + parts[1..] == parts;
    }
  }

  /** Joining one more part adds the separator and that part at the end. */
  lemma {:induction false} JoinSnoc(parts: seq<string>, last: string, sep: string)
    requires parts != []
    ensures Join(parts + [last], sep) == Join(parts, sep) + sep + last
  {
    if |parts| > 1 {
      assert (parts + [last])[1..] == parts[1..] + [last];
      JoinSnoc(parts[1..], last, sep);
    }
  }

  /** `Join` of a list of non-empty parts is empty exactly when the list is. */
  lemma {:induction false} JoinEmpty(parts: seq<string>, sep: string)
    requires forall k :: 0 <= k < |parts| ==> parts[k] != ""
    ensures Join(parts, sep) == "" <==> parts == []
  {
    if |parts| > 1 {
      assert |Join(parts, sep)| >= |parts[0]| > 0;
    }
  }

  /** Where part `k` starts in the join of `parts` with a separator of length `sepLen`:
      the lengths of the parts before it, each followed by a separator. */
  function Offset(parts: seq<string>, sepLen: nat, k: nat): nat
    requires k <= |parts|
  {
    if k == 0 then 0 else |parts[0]| + sepLen + Offset(parts[1..], sepLen, k - 1)
  }

  /** Each part starts one part and one separator after the one before it. */
  lemma {:induction false} OffsetStep(parts: seq<string>, sepLen: nat, k: nat)
    requires k < |parts|
    ensures Offset(parts, sepLen, k + 1) == Offset(parts, sepLen, k) + |parts[k]| + sepLen
  {
    if k > 0 {
      OffsetStep(parts[1..], sepLen, k - 1);
    }
  }

  /** A join is as long as its parts and the separators between them. */
  lemma {:induction false} JoinLength(parts: seq<string>, sep: string)
    requires parts != []
    ensures |Join(parts, sep)| + |sep| == Offset(parts, |sep|, |parts|)
  {
    if |parts| > 1 {
      JoinLength(parts[1..], sep);
    }
  }

  /** Part `k` of a join is found at its offset. */
  lemma {:induction false} JoinPartAt(parts: seq<string>, sep: string, k: nat)
    requires k < |parts|
    ensures Offset(parts, |sep|, k) + |parts[k]| <= |Join(parts, sep)|
    ensures Join(parts, sep)[Offset(parts, |sep|, k)..Offset(parts, |sep|, k) + |parts[k]|] == parts[k]
  {
    var j := Join(parts, sep);
    if |parts| == 1 {
      assert j == parts[0];
    } else if k == 0 {
      assert j == parts[0] + (sep + Join(parts[1..], sep));
    } else {
      var rest := Join(parts[1..], sep);
      JoinPartAt(parts[1..], sep, k - 1);
      assert j == (parts[0] + sep) + rest;
      SuffixSlice(parts[0] + sep, rest, Offset(parts[1..], |sep|, k - 1), Offset(parts[1..], |sep|, k - 1) + |parts[k]|);
    }
  }

  /** A separator follows every part of a join but the last. */
  lemma {:induction false} JoinSepAt(parts: seq<string>, sep: string, k: nat)
    requires k + 1 < |parts|
    ensures Offset(parts, |sep|, k) + |parts[k]| + |sep| <= |Join(parts, sep)|
    ensures Join(parts, sep)[Offset(parts, |sep|, k) + |parts[k]|..Offset(parts, |sep|, k) + |parts[k]| + |sep|] == sep
  {
    var j := Join(parts, sep);
    var rest := Join(parts[1..], sep);
    assert j == (parts[0] + sep) + rest;
    if k > 0 {
      JoinSepAt(parts[1..], sep, k - 1);
      var i := Offset(parts[1..], |sep|, k - 1) + |parts[k]|;
      SuffixSlice(parts[0] + sep, rest, i, i + |sep|);
    }
  }

  /** A slice inside the second of two concatenated strings. */
  lemma SuffixSlice(a: string, b: string, i: nat, k: nat)
    requires i <= k <= |b|
    ensures (a + b)[|a| + i..|a| + k] == b[i..k]
  {
  }

  /** Every part of a join is found at its offset. */
  lemma {:induction false} JoinParts(parts: seq<string>, sep: string)
    ensures forall k :: 0 <= k < |parts| ==>
      Offset(parts, |sep|, k) + |parts[k]| <= |Join(parts, sep)| &&
      Join(parts, sep)[Offset(parts, |sep|, k)..Offset(parts, |sep|, k) + |parts[k]|] == parts[k]
  {
    forall k | 0 <= k < |parts| ensures
      Offset(parts, |sep|, k) + |parts[k]| <= |Join(parts, sep)| &&
      Join(parts, sep)[Offset(parts, |sep|, k)..Offset(parts, |sep|, k) + |parts[k]|] == parts[k]
    {
      JoinPartAt(parts, sep, k);
    }
  }

  /** A separator follows every part of a join but the last; with `OffsetStep`, the
      next part starts right after it. */
  lemma {:induction false} JoinSeps(parts: seq<string>, sep: string)
    ensures forall k :: 0 <= k < |parts| - 1 ==>
      Offset(parts, |sep|, k) + |parts[k]| + |sep| <= |Join(parts, sep)| &&
      Join(parts, sep)[Offset(parts, |sep|, k) + |parts[k]|..Offset(parts, |sep|, k) + |parts[k]| + |sep|] == sep
  {
    forall k | 0 <= k < |parts| - 1 ensures
      Offset(parts, |sep|, k) + |parts[k]| + |sep| <= |Join(parts, sep)| &&
      Join(parts, sep)[Offset(parts, |sep|, k) + |parts[k]|..Offset(parts, |sep|, k) + |parts[k]| + |sep|] == sep
    {
      JoinSepAt(parts, sep, k);
    }
  }

  /** A character found in no part and not in the separator is not in the join. */
  lemma {:induction false} JoinAvoids(parts: seq<string>, sep: string, c: char)
    requires c !in sep && forall k :: 0 <= k < |parts| ==> c !in parts[k]
    ensures c !in Join(parts, sep)
  {
    if |parts| > 1 {
      JoinAvoids(parts[1..], sep, c);
    }
  }

  // ---------- whitespace and case ----------

  /** Python's `str.isspace()` on one character. */
  predicate IsSpace(c: char) {
    var n := c as int;
    (9 <= n <= 13) || (28 <= n <= 32) || n == 0x85 || n == 0xA0 || n == 0x1680
    || (0x2000 <= n <= 0x200A) || n == 0x2028 || n == 0x2029 || n == 0x202F
    || n == 0x205F || n == 0x3000
  }

  /** Python's `not s or not s.strip()`: empty, or whitespace only. */
  predicate IsBlank(s: string) {
    forall k :: 0 <= k < |s| ==> IsSpace(s[k])
  }

  predicate IsAsciiUpper(c: char) { 'A' <= c <= 'Z' }

  predicate IsAsciiLower(c: char) { 'a' <= c <= 'z' }

  function LowerChar(c: char): char {
    if IsAsciiUpper(c) then (c as int + 32) as char else c
  }

  function UpperChar(c: char): char {
    if IsAsciiLower(c) then (c as int - 32) as char else c
  }

  /** `str.lower()` on the ASCII range. */
  function Lower(s: string): (r: string)
    ensures |r| == |s|
    ensures forall k :: 0 <= k < |s| ==> r[k] == LowerChar(s[k]) && !IsAsciiUpper(r[k])
  {
    seq(|s|, k requires 0 <= k < |s| => LowerChar(s[k]))
  }

  /** `str.upper()` on the ASCII range. */
  function Upper(s: string): (r: string)
    ensures |r| == |s|
    ensures forall k :: 0 <= k < |s| ==> r[k] == UpperChar(s[k]) && !IsAsciiLower(r[k])
  {
    seq(|s|, k requires 0 <= k < |s| => UpperChar(s[k]))
  }
}

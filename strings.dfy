/** Character and string helpers shared by the browser script and the Python
    helpers: case mapping, whitespace trimming, substring search, splitting and
    slicing, each written the way the host language defines it (restricted to
    ASCII where the host uses full Unicode case tables). */
module Strings {

  datatype Option<T> = None | Some(value: T) {
    function GetOr(default: T): T {
      match this
      case Some(v) => v
      case None => default
    }
  }

  // ---------------- case mapping ----------------

  predicate IsUpperChar(c: char) { 'A' <= c <= 'Z' }
  predicate IsLowerChar(c: char) { 'a' <= c <= 'z' }

  /** A "cased" character in the sense of Python's str.title(). */
  predicate IsCased(c: char) { IsUpperChar(c) || IsLowerChar(c) }

  function LowerChar(c: char): (r: char)
    ensures !IsUpperChar(r)
    ensures IsCased(c) <==> IsCased(r)
  {
    if IsUpperChar(c) then (c as int + 32) as char else c
  }

  function UpperChar(c: char): (r: char)
    ensures !IsLowerChar(r)
    ensures IsCased(c) <==> IsCased(r)
  {
    if IsLowerChar(c) then (c as int - 32) as char else c
  }

  /** Python str.lower() / JavaScript toLowerCase(). */
  function Lower(s: string): (r: string)
    ensures |r| == |s|
    ensures forall i :: 0 <= i < |s| ==> r[i] == LowerChar(s[i])
  {
    seq(|s|, i requires 0 <= i < |s| => LowerChar(s[i]))
  }

  /** Python str.upper() / JavaScript toUpperCase(). */
  function Upper(s: string): (r: string)
    ensures |r| == |s|
    ensures forall i :: 0 <= i < |s| ==> r[i] == UpperChar(s[i])
  {
    seq(|s|, i requires 0 <= i < |s| => UpperChar(s[i]))
  }

  lemma LowerIdempotent(s: string)
    ensures Lower(Lower(s)) == Lower(s)
  {
    assert forall i :: 0 <= i < |s| ==> Lower(Lower(s))[i] == Lower(s)[i];
  }

  lemma LowerAppend(a: string, b: string)
    ensures Lower(a + b) == Lower(a) + Lower(b)
  {
    assert forall i :: 0 <= i < |a + b| ==> Lower(a + b)[i] == (Lower(a) + Lower(b))[i];
  }

  /** Python str.title(): a cased character is upper-cased when it follows an
      uncased one (or starts the string) and lower-cased otherwise. */
  function TitleFrom(s: string, prevCased: bool): (r: string)
    ensures |r| == |s|
    ensures forall i :: 0 <= i < |s| ==> r[i] == TitleChar(s[i], if i == 0 then prevCased else IsCased(s[i - 1]))
    decreases |s|
  {
    if s == [] then []
    else
      var c := s[0];
      var rest := TitleFrom(s[1..], IsCased(c));
      assert forall i :: 1 <= i < |s| ==> s[1..][i - 1] == s[i];
      [TitleChar(c, prevCased)] + rest
  }

  /** One character of str.title(), given whether the character before it is
      cased: an uncased character stays, a cased one is upper-cased when it
      starts a run of cased characters and lower-cased inside one. */
  function TitleChar(c: char, prevCased: bool): (r: char)
    ensures IsCased(r) <==> IsCased(c)
    ensures IsCased(c) && !prevCased ==> IsUpperChar(r)
    ensures IsCased(c) && prevCased ==> IsLowerChar(r)
  {
    if !IsCased(c) then c else if prevCased then LowerChar(c) else UpperChar(c)
  }

  function Title(s: string): (r: string)
    ensures |r| == |s|
    ensures forall i :: 0 <= i < |s| ==> r[i] == TitleChar(s[i], i > 0 && IsCased(s[i - 1]))
  {
    TitleFrom(s, false)
  }

  /** Python str.replace(old, new) for single characters. */
  function ReplaceChar(s: string, from: char, to: char): (r: string)
    ensures |r| == |s|
    ensures from != to ==> from !in r
    ensures forall i :: 0 <= i < |s| ==> r[i] == if s[i] == from then to else s[i]
  {
    seq(|s|, i requires 0 <= i < |s| => if s[i] == from then to else s[i])
  }

  // ---------------- whitespace ----------------

  /** The characters for which Python's str.isspace() holds (ASCII, Latin-1
      and the Unicode space separators): what str.strip() and str.split() skip. */
  predicate PyIsSpace(c: char) {
    ('\t' <= c <= '\r') || ('\U{1C}' <= c <= ' ') || c == '\U{85}' || c == '\U{A0}'
    || c == '\U{1680}' || ('\U{2000}' <= c <= '\U{200A}') || c == '\U{2028}' || c == '\U{2029}'
    || c == '\U{202F}' || c == '\U{205F}' || c == '\U{3000}'
  }

  /** The characters JavaScript's String.prototype.trim() removes: WhiteSpace
      and LineTerminator. Unlike Python it keeps U+001C..U+001F and U+0085 and
      removes U+FEFF. */
  predicate JsIsSpace(c: char) {
    ('\t' <= c <= '\r') || c == ' ' || c == '\U{A0}' || c == '\U{FEFF}'
    || c == '\U{1680}' || ('\U{2000}' <= c <= '\U{200A}') || c == '\U{2028}' || c == '\U{2029}'
    || c == '\U{202F}' || c == '\U{205F}' || c == '\U{3000}'
  }

  predicate AllSpace(s: string, ws: char -> bool) {
    forall i :: 0 <= i < |s| ==> ws(s[i])
  }

  /** The length of the longest all-space prefix. */
  function LeadingCount(s: string, ws: char -> bool): (n: nat)
    ensures n <= |s| && (n < |s| ==> !ws(s[n]))
    ensures forall i :: 0 <= i < n ==> ws(s[i])
  {
    if s == [] || !ws(s[0]) then 0
    else
      var m := LeadingCount(s[1..], ws);
      assert forall i :: 1 <= i < m + 1 ==> s[i] == s[1..][i - 1];
      m + 1
  }

  /** The length of the longest all-space suffix. */
  function TrailingCount(s: string, ws: char -> bool): (n: nat)
    ensures n <= |s| && (n < |s| ==> !ws(s[|s| - 1 - n]))
    ensures forall i :: |s| - n <= i < |s| ==> ws(s[i])
  {
    if s == [] || !ws(s[|s| - 1]) then 0
    else
      var init := s[..|s| - 1];
      var m := TrailingCount(init, ws);
      assert forall i :: |s| - 1 - m <= i < |s| - 1 ==> s[i] == init[i];
      m + 1
  }

  function DropLeading(s: string, ws: char -> bool): (r: string)
    ensures |r| <= |s| && r == s[|s| - |r|..]
    ensures AllSpace(s[..|s| - |r|], ws)
    ensures r == [] || !ws(r[0])
  {
    var n := LeadingCount(s, ws);
    assert forall i :: 0 <= i < n ==> s[..n][i] == s[i];
    s[n..]
  }

  function DropTrailing(s: string, ws: char -> bool): (r: string)
    ensures |r| <= |s| && r == s[..|r|]
    ensures AllSpace(s[|r|..], ws)
    ensures r == [] || !ws(r[|r| - 1])
  {
    var n := TrailingCount(s, ws);
    var k := |s| - n;
    assert forall i :: 0 <= i < n ==> s[k..][i] == s[k + i];
    s[..k]
  }

  /** Remove the longest all-space prefix and suffix. */
  function Strip(s: string, ws: char -> bool): (r: string)
    ensures |r| <= |s|
    ensures r == [] || (!ws(r[0]) && !ws(r[|r| - 1]))
    ensures r == [] <==> AllSpace(s, ws)
    ensures s == [] || (!ws(s[0]) && !ws(s[|s| - 1])) ==> r == s
  {
    var a := DropLeading(s, ws);
    var r := DropTrailing(a, ws);
    StripFacts(s, ws, a, r);
    r
  }

  lemma StripFacts(s: string, ws: char -> bool, a: string, r: string)
    requires a == DropLeading(s, ws) && r == DropTrailing(a, ws)
    ensures r == [] <==> AllSpace(s, ws)
  {
    var i := |s| - |a|;
    if a == [] {
      assert s[..i] == s;
    } else {
      assert r != [] && a[0] == r[0];
      assert a[0] == s[i];
    }
  }

  lemma StripIdempotent(s: string, ws: char -> bool)
    ensures Strip(Strip(s, ws), ws) == Strip(s, ws)
  {
  }

  /** Python str.strip() with no argument. */
  function PyStrip(s: string): string { Strip(s, PyIsSpace) }

  /** JavaScript String.prototype.trim(). */
  function JsTrim(s: string): string { Strip(s, JsIsSpace) }

  // ---------------- substrings ----------------

  predicate IsPrefix(p: string, s: string) {
    |p| <= |s| && s[..|p|] == p
  }

  /** Python `needle in hay` / JavaScript hay.includes(needle). */
  predicate Contains(needle: string, hay: string)
    decreases |hay|
  {
    IsPrefix(needle, hay) || (hay != [] && Contains(needle, hay[1..]))
  }

  lemma {:induction false} ContainsAt(needle: string, hay: string, i: nat)
    requires i + |needle| <= |hay| && hay[i..i + |needle|] == needle
    ensures Contains(needle, hay)
    decreases i
  {
    if i > 0 {
      assert hay[1..][i - 1..i - 1 + |needle|] == needle;
      ContainsAt(needle, hay[1..], i - 1);
    }
  }

  lemma {:induction false} ContainsWitness(needle: string, hay: string) returns (i: nat)
    requires Contains(needle, hay)
    ensures i + |needle| <= |hay| && hay[i..i + |needle|] == needle
    decreases |hay|
  {
    if IsPrefix(needle, hay) {
      i := 0;
    } else {
      var j := ContainsWitness(needle, hay[1..]);
      i := j + 1;
      assert hay[i..i + |needle|] == hay[1..][j..j + |needle|];
    }
  }

  /** A substring of a substring is a substring. */
  lemma ContainsTransitive(a: string, b: string, c: string)
    requires Contains(a, b) && Contains(b, c)
    ensures Contains(a, c)
  {
    var i := ContainsWitness(a, b);
    var j := ContainsWitness(b, c);
    forall k | 0 <= k < |a| ensures c[j + i..j + i + |a|][k] == a[k] {
      assert b[i + k] == a[k];
      assert c[j..j + |b|][i + k] == b[i + k];
    }
    ContainsAt(a, c, j + i);
  }

  /** Python `any(w in s for w in words)`. */
  predicate ContainsAny(s: string, words: seq<string>) {
    exists i :: 0 <= i < |words| && Contains(words[i], s)
  }

  /** Index of the first occurrence of needle, as Python's str.find. */
  function Find(needle: string, hay: string): (r: Option<nat>)
    ensures r.Some? <==> Contains(needle, hay)
    ensures r.Some? ==> r.value + |needle| <= |hay| && hay[r.value..r.value + |needle|] == needle
    ensures r.Some? ==> forall j :: 0 <= j < r.value ==> !IsPrefix(needle, hay[j..])
    decreases |hay|
  {
    if IsPrefix(needle, hay) then Some(0)
    else if hay == [] then None
    else
      match Find(needle, hay[1..])
      case None => None
      case Some(k) =>
        FirstOccurrenceShift(needle, hay, k);
        Some(k + 1)
  }

  /** A first occurrence at k in hay[1..] is one at k + 1 in hay, when hay
      does not start with the needle. */
  lemma FirstOccurrenceShift(needle: string, hay: string, k: nat)
    requires hay != [] && !IsPrefix(needle, hay)
    requires k + |needle| <= |hay[1..]| && hay[1..][k..k + |needle|] == needle
    requires forall j :: 0 <= j < k ==> !IsPrefix(needle, hay[1..][j..])
    ensures k + 1 + |needle| <= |hay| && hay[k + 1..k + 1 + |needle|] == needle
    ensures forall j :: 0 <= j < k + 1 ==> !IsPrefix(needle, hay[j..])
  {
    assert hay[k + 1..k + 1 + |needle|] == hay[1..][k..k + |needle|];
    forall j | 1 <= j < k + 1 ensures !IsPrefix(needle, hay[j..]) {
      assert hay[j..] == hay[1..][j - 1..];
    }
  }

  datatype Split = Unsplit | Parts(before: string, after: string)

  /** Python s.split(sep, 1): two parts around the first occurrence of sep,
      or the string unsplit when sep does not occur. */
  function SplitOnce(s: string, sep: string): (r: Split)
    requires sep != []
    ensures r.Unsplit? <==> !Contains(sep, s)
    ensures r.Parts? ==> s == r.before + sep + r.after && !Contains(sep, r.before + sep[..|sep| - 1])
  {
    match Find(sep, s)
    case None => Unsplit
    case Some(i) =>
      var before, after := s[..i], s[i + |sep|..];
      assert s == before + sep + after;
      NoEarlierOccurrence(sep, s, i);
      Parts(before, after)
  }

  /** Splitting at a known first occurrence: when sep occurs after pre and
      nowhere earlier, split(sep, 1) gives pre and the rest. */
  lemma SplitOnceAt(s: string, sep: string, pre: string, post: string)
    requires sep != [] && s == pre + sep + post
    requires !Contains(sep, pre + sep[..|sep| - 1])
    ensures SplitOnce(s, sep) == Parts(pre, post)
  {
    FirstOccurrence(s, sep, pre, post);
    ContainsAt(sep, s, |pre|);
    var i := Find(sep, s).value;
    assert i <= |pre| by {
      assert IsPrefix(sep, s[|pre|..]);
    }
    assert i >= |pre| by {
      OccurrenceInPrefix(s, sep, i, |pre| + |sep| - 1);
    }
    assert pre == s[..i] && post == s[i + |sep|..];
  }

  /** The facts about s that a split at pre + sep + post gives. */
  lemma FirstOccurrence(s: string, sep: string, pre: string, post: string)
    requires sep != [] && s == pre + sep + post
    ensures s[|pre|..|pre| + |sep|] == sep
    ensures pre + sep[..|sep| - 1] == s[..|pre| + |sep| - 1]
  {
  }

  /** An occurrence that ends within the first n characters is one of s[..n]. */
  lemma OccurrenceInPrefix(s: string, sep: string, i: nat, n: int)
    ensures i + |sep| <= n <= |s| && s[i..i + |sep|] == sep ==> Contains(sep, s[..n])
  {
    if i + |sep| <= n <= |s| && s[i..i + |sep|] == sep {
      assert s[..n][i..i + |sep|] == s[i..i + |sep|];
      ContainsAt(sep, s[..n], i);
    }
  }

  lemma NoEarlierOccurrence(sep: string, s: string, i: nat)
    requires sep != []
    requires i + |sep| <= |s| && s[i..i + |sep|] == sep
    requires forall j :: 0 <= j < i ==> !IsPrefix(sep, s[j..])
    ensures !Contains(sep, s[..i] + sep[..|sep| - 1])
  {
    var t := s[..i] + sep[..|sep| - 1];
    PrefixJoin(s, i, sep);
    NoOccurrenceInPrefix(sep, s, i, t);
    NotContains(sep, t);
  }

  lemma PrefixJoin(s: string, i: nat, sep: string)
    requires sep != [] && i + |sep| <= |s| && s[i..i + |sep|] == sep
    ensures s[..i] + sep[..|sep| - 1] == s[..i + |sep| - 1]
  {
    assert sep[..|sep| - 1] == s[i..i + |sep| - 1];
  }

  lemma NoOccurrenceInPrefix(sep: string, s: string, i: nat, t: string)
    requires sep != [] && i + |sep| - 1 <= |s| && t == s[..i + |sep| - 1]
    requires forall j :: 0 <= j < i ==> !IsPrefix(sep, s[j..])
    ensures forall j: nat :: !OccursAt(sep, t, j)
  {
    forall j: nat ensures !OccursAt(sep, t, j) {
      if j + |sep| <= |t| {
        SliceOfPrefix(s, i + |sep| - 1, j, |sep|);
        assert !IsPrefix(sep, s[j..]);
      }
    }
  }

  lemma SliceOfPrefix(s: string, n: nat, j: nat, len: nat)
    requires j + len <= n <= |s|
    ensures s[..n][j..j + len] == s[j..][..len]
  {
  }

  predicate OccursAt(needle: string, hay: string, j: nat) {
    j + |needle| <= |hay| && hay[j..j + |needle|] == needle
  }

  lemma {:induction false} NotContains(needle: string, hay: string)
    requires forall j: nat :: !OccursAt(needle, hay, j)
    ensures !Contains(needle, hay)
    decreases |hay|
  {
    if hay != [] {
      forall j: nat ensures !OccursAt(needle, hay[1..], j) {
        if j + |needle| <= |hay| - 1 {
          assert hay[1..][j..j + |needle|] == hay[j + 1..j + 1 + |needle|];
        }
        assert !OccursAt(needle, hay, j + 1);
      }
      NotContains(needle, hay[1..]);
    }
    assert !OccursAt(needle, hay, 0);
    if |needle| <= |hay| {
      assert hay[..|needle|] == hay[0..0 + |needle|];
    }
  }

  /** The last element of Python's s.split(sep, 1). */
  function LastPart(s: string, sep: string): string
    requires sep != []
  {
    match SplitOnce(s, sep)
    case Unsplit => s
    case Parts(_, after) => after
  }

  lemma LastPartWithoutSep(s: string, sep: string)
    requires sep != [] && !Contains(sep, s)
    ensures LastPart(s, sep) == s
  {
  }

  // ---------------- words ----------------

  function TokenLength(s: string): (n: nat)
    ensures n <= |s|
    ensures forall i :: 0 <= i < n ==> !PyIsSpace(s[i])
    ensures n < |s| ==> PyIsSpace(s[n])
  {
    if s == [] || PyIsSpace(s[0]) then 0 else 1 + TokenLength(s[1..])
  }

  /** Python s.split() with no argument: the maximal runs of non-space characters. */
  function Words(s: string): (r: seq<string>)
    ensures forall i :: 0 <= i < |r| ==> r[i] != [] && forall k :: 0 <= k < |r[i]| ==> !PyIsSpace(r[i][k])
    decreases |s|
  {
    if s == [] then []
    else if PyIsSpace(s[0]) then Words(s[1..])
    else
      var n := TokenLength(s);
      [s[..n]] + Words(s[n..])
  }

  /** The first word is the first maximal run of non-space characters: it
      starts after the leading spaces and ends at the next space or at the end. */
  lemma {:induction false} WordsHead(s: string)
    requires !AllSpace(s, PyIsSpace)
    ensures var d := DropLeading(s, PyIsSpace);
      d != [] && Words(s) != [] && Words(s)[0] == d[..TokenLength(d)]
    decreases |s|
  {
    if PyIsSpace(s[0]) {
      assert !AllSpace(s[1..], PyIsSpace) by {
        var k :| 0 <= k < |s| && !PyIsSpace(s[k]);
        assert s[1..][k - 1] == s[k];
      }
      WordsHead(s[1..]);
      var m := LeadingCount(s[1..], PyIsSpace);
      assert LeadingCount(s, PyIsSpace) == m + 1;
      assert s[m + 1..] == s[1..][m..];
    } else {
      assert LeadingCount(s, PyIsSpace) == 0;
      assert s[0..] == s;
    }
  }

  lemma {:induction false} WordsEmptyIff(s: string)
    ensures Words(s) == [] <==> AllSpace(s, PyIsSpace)
    decreases |s|
  {
    if s != [] && PyIsSpace(s[0]) {
      WordsEmptyIff(s[1..]);
      assert AllSpace(s, PyIsSpace) <==> AllSpace(s[1..], PyIsSpace) by {
        assert forall k :: 1 <= k < |s| ==> s[k] == s[1..][k - 1];
      }
    }
  }

  lemma {:induction false} WordsCountBound(s: string)
    ensures |Words(s)| <= |s|
    decreases |s|
  {
    if s != [] {
      if PyIsSpace(s[0]) {
        WordsCountBound(s[1..]);
      } else {
        WordsCountBound(s[TokenLength(s)..]);
      }
    }
  }

  // ---------------- slicing ----------------

  function Min(a: int, b: int): int { if a <= b then a else b }

  /** A prefix one longer is the prefix and the next element. */
  lemma PrefixSnoc<T>(s: seq<T>, k: nat)
    requires k < |s|
    ensures s[..k + 1] == s[..k] + [s[k]]
  {
  }

  /** s[:n] in Python for a non-negative bound, s.slice(0, n) in JavaScript. */
  function Take<T>(s: seq<T>, n: nat): (r: seq<T>)
    ensures |r| == Min(n, |s|) && r == s[..|r|]
  {
    if n <= |s| then s[..n] else s
  }

  /** Python s[:k] for any integer k: a negative k counts from the end. */
  function PySliceTo<T>(s: seq<T>, k: int): (r: seq<T>)
    ensures |r| <= |s| && r == s[..|r|]
    ensures k >= 0 ==> |r| == Min(k, |s|)
    ensures k < 0 ==> |r| == if |s| + k >= 0 then |s| + k else 0
  {
    if k >= 0 then Take(s, k)
    else if |s| + k >= 0 then s[..|s| + k]
    else []
  }
}

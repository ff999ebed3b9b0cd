/** ai/rag_engine.py: keyword retrieval over the knowledge-base documents.
    Reading the *.txt files is not modelled; the documents are an input. */
module Rag {
  import opened Strings
  import opened Sorting

  /** One knowledge-base file: its stem and its text. */
  datatype Doc = Doc(title: string, content: string)

  /** One retrieved passage. */
  datatype Context = Context(title: string, score: nat, snippet: string)

  const SnippetLength := 400

  /** The text searched: title, a space, content, all lower-cased. */
  function DocText(d: Doc): string {
    Lower(d.title + " " + d.content)
  }

  /** How many of the words occur as substrings of the text (a repeated word
      counts each time). */
  function CountContained(words: seq<string>, text: string): (n: nat)
    ensures n <= |words|
  {
    if words == [] then 0
    else
      var last := |words| - 1;
      CountContained(words[..last], text) + (if Contains(words[last], text) then 1 else 0)
  }

  function QuestionWords(question: string): seq<string> {
    Words(Lower(question))
  }

  /** The score score_doc computes. */
  function DocScore(question: string, d: Doc): nat {
    CountContained(QuestionWords(question), DocText(d))
  }

  /** score_doc: one point for every question word found in the document. */
  method ScoreDoc(question: string, doc: Doc) returns (score: nat)
    ensures score == DocScore(question, doc)
  {
    var qWords := Words(Lower(question));
    var text := Lower(doc.title + " " + doc.content);
    score := 0;
    for i := 0 to |qWords|
      invariant score == CountContained(qWords[..i], text)
    {
      assert qWords[..i + 1][..i] == qWords[..i];
      if Contains(qWords[i], text) {
        score := score + 1;
      }
    }
    assert qWords[..|qWords|] == qWords;
  }

  /** The score never exceeds the number of question words; it reaches that
      number exactly when every word is found, and is zero exactly when none is. */
  lemma {:induction false} CountExtremes(words: seq<string>, text: string)
    ensures CountContained(words, text) == |words| <==> forall i :: 0 <= i < |words| ==> Contains(words[i], text)
    ensures CountContained(words, text) == 0 <==> forall i :: 0 <= i < |words| ==> !Contains(words[i], text)
    decreases |words|
  {
    if words != [] {
      var last := |words| - 1;
      var init := words[..last];
      CountExtremes(init, text);
      assert forall i :: 0 <= i < last ==> words[i] == init[i];
    }
  }

  /** A question made only of whitespace matches nothing. */
  lemma BlankQuestionScoresZero(question: string, d: Doc)
    requires AllSpace(question, PyIsSpace)
    ensures DocScore(question, d) == 0
  {
    assert AllSpace(Lower(question), PyIsSpace);
    WordsEmptyIff(Lower(question));
  }

  /** Matching ignores case in the question. */
  lemma ScoreIgnoresQuestionCase(question: string, d: Doc)
    ensures DocScore(Lower(question), d) == DocScore(question, d)
  {
    LowerIdempotent(question);
  }

  /** The retrieved passage for a document with a positive score. */
  function ContextOf(question: string, d: Doc): Context {
    Context(d.title, DocScore(question, d), Take(d.content, SnippetLength))
  }

  /** The passages of the documents that score above zero, in document order. */
  function Hits(question: string, docs: seq<Doc>): (r: seq<Context>)
    ensures |r| <= |docs|
    ensures forall c :: c in r ==> c.score > 0 && exists d :: d in docs && c == ContextOf(question, d)
    ensures forall d :: d in docs && DocScore(question, d) > 0 ==> ContextOf(question, d) in r
  {
    if docs == [] then []
    else
      var init := docs[..|docs| - 1];
      var d := docs[|docs| - 1];
      assert docs == init + [d];
      Hits(question, init) + (if DocScore(question, d) > 0 then [ContextOf(question, d)] else [])
  }

  /** Hits keep document order and give one passage per hit: the hits of a
      concatenation are those of each part, and a single document gives its
      passage or nothing. */
  lemma {:induction false} HitsAppend(question: string, a: seq<Doc>, b: seq<Doc>)
    ensures Hits(question, a + b) == Hits(question, a) + Hits(question, b)
    decreases |b|
  {
    if b == [] {
      assert a + b == a;
    } else {
      var n := |b| - 1;
      assert (a + b)[..|a + b| - 1] == a + b[..n];
      assert (a + b)[|a + b| - 1] == b[n];
      HitsAppend(question, a, b[..n]);
    }
  }

  lemma HitsSingle(question: string, d: Doc)
    ensures Hits(question, [d]) == if DocScore(question, d) > 0 then [ContextOf(question, d)] else []
  {
    assert [d][..0] == [];
  }

  function ContextScore(c: Context): int { c.score }

  /** What retrieve_context returns: the hits, best first, cut to top_k. */
  function Retrieved(question: string, docs: seq<Doc>, topK: int): seq<Context> {
    PySliceTo(Sort(Hits(question, docs), ContextScore, Descending), topK)
  }

  /** retrieve_context over documents already loaded. */
  method RetrieveContext(question: string, docs: seq<Doc>, topK: int) returns (result: seq<Context>)
    ensures result == Retrieved(question, docs, topK)
  {
    var scored: seq<Context> := [];
    for i := 0 to |docs|
      invariant scored == Hits(question, docs[..i])
    {
      var d := docs[i];
      assert docs[..i + 1] == docs[..i] + [d];
      var s := ScoreDoc(question, d);
      if s > 0 {
        scored := scored + [Context(d.title, s, Take(d.content, SnippetLength))];
      }
    }
    assert docs[..|docs|] == docs;
    result := PySliceTo(Sort(scored, ContextScore, Descending), topK);
  }

  /** Retrieval returns at most top_k passages (when top_k is not negative),
      each from a document that matched at least one question word, with its
      first 400 characters, best score first; when top_k covers all hits,
      every matching document is there. */
  lemma RetrievedProperties(question: string, docs: seq<Doc>, topK: int)
    ensures var r := Retrieved(question, docs, topK);
      && |r| <= |docs|
      && (topK >= 0 ==> |r| <= topK)
      && (forall i :: 0 <= i < |r| ==>
            r[i].score > 0 && exists d :: d in docs && r[i] == ContextOf(question, d))
      && (forall i, j :: 0 <= i < j < |r| ==> r[i].score >= r[j].score)
      && (topK >= |docs| ==> forall d :: d in docs && DocScore(question, d) > 0 ==> ContextOf(question, d) in r)
  {
    var h := Hits(question, docs);
    var s := Sort(h, ContextScore, Descending);
    var r := Retrieved(question, docs, topK);
    SortMembers(h, ContextScore, Descending);
    assert forall i :: 0 <= i < |r| ==> r[i] == s[i];
    forall i | 0 <= i < |r|
      ensures r[i].score > 0 && exists d :: d in docs && r[i] == ContextOf(question, d)
    {
      assert s[i] in h;
    }
    if topK >= |docs| {
      assert r == s;
    }
  }

  /** Which hits survive the cut: the passages kept are the first ones of the
      hits sorted by score (min(top_k, hits) of them when top_k is not
      negative), none cut off scores above one kept, and among passages of
      equal score the ones kept are the earliest in document order, since the
      sort is stable. */
  lemma RetrievedCut(question: string, docs: seq<Doc>, topK: int)
    ensures var h := Hits(question, docs);
      var s := Sort(h, ContextScore, Descending);
      var r := Retrieved(question, docs, topK);
      && r == s[..|r|]
      && (topK >= 0 ==> |r| == Min(topK, |h|))
      && (forall i, j :: 0 <= i < |r| <= j < |s| ==> s[j].score <= r[i].score)
      && (forall k :: WithKey(s, ContextScore, k) == WithKey(h, ContextScore, k))
      && (forall k :: var w := WithKey(r, ContextScore, k); |w| <= |WithKey(h, ContextScore, k)| && w == WithKey(h, ContextScore, k)[..|w|])
  {
    var h := Hits(question, docs);
    var s := Sort(h, ContextScore, Descending);
    var r := Retrieved(question, docs, topK);
    assert forall i, j :: 0 <= i < |r| <= j < |s| ==> s[j].score <= r[i].score by {
      assert forall i :: 0 <= i < |r| ==> r[i] == s[i];
    }
    forall k
      ensures WithKey(s, ContextScore, k) == WithKey(h, ContextScore, k)
      ensures var w := WithKey(r, ContextScore, k); |w| <= |WithKey(h, ContextScore, k)| && w == WithKey(h, ContextScore, k)[..|w|]
    {
      SortStable(h, ContextScore, Descending, k);
      WithKeyPrefix(s, |r|, ContextScore, k);
    }
  }
}

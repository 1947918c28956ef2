/** Hybrid retrieval for /api/chat: every query scores every document by
    embedding similarity plus a keyword bonus, the best fifteen per query
    become candidates, candidates are merged by text keeping the best score,
    and the five best texts form the retrieved context. */
module Retrieval {
  import opened Wrappers
  import opened JsString
  import opened Keywords
  import opened Similarity
  import opened Documents
  import opened OrderedSet

  const InitialCandidates: nat := 15
  const FinalCandidates: nat := 5
  const KeywordWeight: real := 0.1
  const ContextSeparator: string := "\n\n"

  /** A document with its combined score for one query. */
  datatype Scored = Scored(doc: Document, score: real)

  // ---------------------------------------------------------------------
  // Scoring

  /** How many of the document's keywords (with repeats) are query keywords. */
  function KeywordMatches(docKeywords: seq<string>, queryKeywords: seq<string>): (n: nat)
    ensures n <= |docKeywords|
  {
    if docKeywords == [] then 0
    else (if docKeywords[0] in queryKeywords then 1 else 0) + KeywordMatches(docKeywords[1..], queryKeywords)
  }

  /** Semantic similarity of query and document plus 0.1 per matching keyword. */
  function Score(queryEmbedding: Vector, queryKeywords: seq<string>, d: Document, sqrt: real -> real): real
  {
    Cosine(queryEmbedding, d.embedding, sqrt) + (KeywordMatches(d.meta.keywords, queryKeywords) as real) * KeywordWeight
  }

  function ScoreAll(pool: seq<Document>, queryEmbedding: Vector, queryKeywords: seq<string>, sqrt: real -> real): (r: seq<Scored>)
    ensures |r| == |pool|
    ensures forall i :: 0 <= i < |pool| ==> r[i] == Scored(pool[i], Score(queryEmbedding, queryKeywords, pool[i], sqrt))
  {
    if pool == [] then []
    else [Scored(pool[0], Score(queryEmbedding, queryKeywords, pool[0], sqrt))] + ScoreAll(pool[1..], queryEmbedding, queryKeywords, sqrt)
  }

  /** A document with no keyword in common with the query scores its
      similarity alone, and every matching keyword adds exactly 0.1. */
  lemma {:induction false} KeywordBonus(docKeywords: seq<string>, queryKeywords: seq<string>)
    ensures (forall i :: 0 <= i < |docKeywords| ==> docKeywords[i] !in queryKeywords) ==> KeywordMatches(docKeywords, queryKeywords) == 0
    ensures (forall i :: 0 <= i < |docKeywords| ==> docKeywords[i] in queryKeywords) ==> KeywordMatches(docKeywords, queryKeywords) == |docKeywords|
  {
    if docKeywords != [] {
      KeywordBonus(docKeywords[1..], queryKeywords);
      assert forall i :: 1 <= i < |docKeywords| ==> docKeywords[1..][i - 1] == docKeywords[i];
    }
  }

  // ---------------------------------------------------------------------
  // Stable sort by descending score

  predicate SortedDesc(s: seq<Scored>)
  {
    forall i, j :: 0 <= i < j < |s| ==> s[i].score >= s[j].score
  }

  /** Place x after every element scoring at least as much. */
  function Insert(x: Scored, s: seq<Scored>): seq<Scored>
  {
    if s == [] then [x]
    else if s[0].score >= x.score then [s[0]] + Insert(x, s[1..])
    else [x] + s
  }

  /** `.sort((a, b) => b.combinedScore - a.combinedScore)`: Array.prototype.sort
      is stable, so equal scores keep their order. */
  function SortDesc(s: seq<Scored>): seq<Scored>
  {
    if s == [] then [] else Insert(s[|s| - 1], SortDesc(s[..|s| - 1]))
  }

  /** `.slice(0, k)`. */
  function Take(s: seq<Scored>, k: nat): (r: seq<Scored>)
    ensures |r| <= k && |r| <= |s| && r == s[..|r|]
    ensures |s| >= k ==> |r| == k
  {
    if |s| <= k then s else s[..k]
  }

  /** The elements of one score, in order. */
  function ScoreClass(s: seq<Scored>, r: real): seq<Scored>
  {
    if s == [] then [] else (if s[0].score == r then [s[0]] else []) + ScoreClass(s[1..], r)
  }

  lemma {:induction false} InsertMultiset(x: Scored, s: seq<Scored>)
    ensures multiset(Insert(x, s)) == multiset(s) + multiset{x}
  {
    if s != [] && s[0].score >= x.score {
      InsertMultiset(x, s[1..]);
      assert s == [s[0]] + s[1..];
    }
  }

  lemma {:induction false} InsertMembers(x: Scored, s: seq<Scored>)
    ensures forall y :: y in Insert(x, s) <==> y == x || y in s
  {
    if s != [] && s[0].score >= x.score {
      InsertMembers(x, s[1..]);
      assert s == [s[0]] + s[1..];
    }
  }

  /** A head scoring at least everything after it keeps a sequence sorted. */
  lemma SortedCons(h: Scored, rest: seq<Scored>)
    requires SortedDesc(rest) && forall y :: y in rest ==> h.score >= y.score
    ensures SortedDesc([h] + rest)
  {
    var r := [h] + rest;
    forall i, j | 0 <= i < j < |r| ensures r[i].score >= r[j].score {
      assert r[j] == rest[j - 1];
      if i == 0 {
        assert rest[j - 1] in rest;
      } else {
        assert r[i] == rest[i - 1];
      }
    }
  }

  /** The head of a sorted sequence scores at least everything in it. */
  lemma SortedHead(s: seq<Scored>)
    requires SortedDesc(s) && s != []
    ensures forall y :: y in s ==> s[0].score >= y.score
  {
    forall y | y in s ensures s[0].score >= y.score {
      var k :| 0 <= k < |s| && s[k] == y;
    }
  }

  lemma {:induction false} InsertSorted(x: Scored, s: seq<Scored>)
    requires SortedDesc(s)
    ensures SortedDesc(Insert(x, s))
  {
    if s == [] {
      assert Insert(x, s) == [x];
    } else if s[0].score >= x.score {
      var tail := s[1..];
      SortedTail(s);
      InsertSorted(x, tail);
      InsertMembers(x, tail);
      SortedHead(s);
      assert forall y :: y in tail ==> y in s;
      SortedCons(s[0], Insert(x, tail));
    } else {
      SortedHead(s);
      SortedCons(x, s);
    }
  }

  lemma {:induction false} ScoreClassAppend(a: seq<Scored>, b: seq<Scored>, r: real)
    ensures ScoreClass(a + b, r) == ScoreClass(a, r) + ScoreClass(b, r)
  {
    if a != [] {
      ScoreClassAppend(a[1..], b, r);
      assert (a + b)[0] == a[0] && (a + b)[1..] == a[1..] + b;
      var h := if a[0].score == r then [a[0]] else [];
      assert ScoreClass(a + b, r) == h + ScoreClass(a[1..] + b, r);
      assert ScoreClass(a, r) == h + ScoreClass(a[1..], r);
      assert h + (ScoreClass(a[1..], r) + ScoreClass(b, r)) == (h + ScoreClass(a[1..], r)) + ScoreClass(b, r);
    } else {
      assert a + b == b;
    }
  }

  /** In a descending sequence headed below r nothing scores r. */
  lemma {:induction false} ScoreClassBelow(s: seq<Scored>, r: real)
    requires SortedDesc(s) && (s == [] || s[0].score < r)
    ensures ScoreClass(s, r) == []
  {
    if s != [] {
      ScoreClassBelow(s[1..], r);
    }
  }

  lemma ScoreClassCons(h: Scored, t: seq<Scored>, r: real)
    ensures ScoreClass([h] + t, r) == (if h.score == r then [h] else []) + ScoreClass(t, r)
  {
    assert ([h] + t)[0] == h && ([h] + t)[1..] == t;
  }

  lemma SortedTail(s: seq<Scored>)
    requires SortedDesc(s) && s != []
    ensures SortedDesc(s[1..])
  {
    forall i, j | 0 <= i < j < |s| - 1 ensures s[1..][i].score >= s[1..][j].score {
      assert s[1..][i] == s[i + 1] && s[1..][j] == s[j + 1];
    }
  }

  /** Inserting x puts it after every element of its own score. */
  lemma {:induction false} InsertScoreClass(x: Scored, s: seq<Scored>, r: real)
    requires SortedDesc(s)
    ensures ScoreClass(Insert(x, s), r) == ScoreClass(s, r) + (if x.score == r then [x] else [])
  {
    if s == [] {
      ScoreClassCons(x, [], r);
    } else if s[0].score >= x.score {
      var h := if s[0].score == r then [s[0]] else [];
      var tail := s[1..];
      SortedTail(s);
      InsertScoreClass(x, tail, r);
      assert Insert(x, s) == [s[0]] + Insert(x, tail);
      ScoreClassCons(s[0], Insert(x, tail), r);
      assert s == [s[0]] + tail;
      ScoreClassCons(s[0], tail, r);
    } else {
      assert Insert(x, s) == [x] + s;
      ScoreClassCons(x, s, r);
      if x.score == r {
        ScoreClassBelow(s, r);
      }
    }
  }

  lemma {:induction false} SortDescSorted(s: seq<Scored>)
    ensures SortedDesc(SortDesc(s))
  {
    if s != [] {
      SortDescSorted(s[..|s| - 1]);
      InsertSorted(s[|s| - 1], SortDesc(s[..|s| - 1]));
    }
  }

  lemma {:induction false} SortDescPermutes(s: seq<Scored>)
    ensures multiset(SortDesc(s)) == multiset(s)
  {
    if s != [] {
      var init, last := s[..|s| - 1], s[|s| - 1];
      SortDescPermutes(init);
      InsertMultiset(last, SortDesc(init));
      assert s == init + [last];
    }
  }

  lemma {:induction false} SortDescStable(s: seq<Scored>, r: real)
    ensures ScoreClass(SortDesc(s), r) == ScoreClass(s, r)
  {
    if s != [] {
      var init, last := s[..|s| - 1], s[|s| - 1];
      SortDescStable(init, r);
      SortDescSorted(init);
      InsertScoreClass(last, SortDesc(init), r);
      ScoreClassAppend(init, [last], r);
      ScoreClassCons(last, [], r);
      assert s == init + [last];
    }
  }

  /** The sort is descending, loses and adds nothing, and keeps the order of
      equally scored elements. */
  lemma SortDescSpec(s: seq<Scored>)
    ensures SortedDesc(SortDesc(s))
    ensures multiset(SortDesc(s)) == multiset(s)
    ensures forall r :: ScoreClass(SortDesc(s), r) == ScoreClass(s, r)
  {
    SortDescSorted(s);
    SortDescPermutes(s);
    forall r ensures ScoreClass(SortDesc(s), r) == ScoreClass(s, r) {
      SortDescStable(s, r);
    }
  }

  /** Taking the first k of a descending sequence keeps the k best: nothing
      left out scores above anything kept. */
  lemma TopK(s: seq<Scored>, k: nat)
    requires SortedDesc(s)
    ensures forall x, y :: x in Take(s, k) && y in s[|Take(s, k)|..] ==> x.score >= y.score
  {
    var n := |Take(s, k)|;
    forall x, y | x in Take(s, k) && y in s[n..] ensures x.score >= y.score {
      var i :| 0 <= i < n && s[..n][i] == x;
      var j :| 0 <= j < |s[n..]| && s[n..][j] == y;
      assert s[i] == x && s[n + j] == y;
    }
  }

  // ---------------------------------------------------------------------
  // Merging candidates by text, as the Map keyed by text does

  function Texts(s: seq<Scored>): (r: seq<string>)
    ensures |r| == |s| && forall i :: 0 <= i < |s| ==> r[i] == s[i].doc.text
  {
    if s == [] then [] else [s[0].doc.text] + Texts(s[1..])
  }

  /** Position of the entry with text t, or |entries| when there is none. */
  function IndexOfText(entries: seq<Scored>, t: string): (i: nat)
    ensures i <= |entries|
    ensures i < |entries| ==> entries[i].doc.text == t
    ensures forall j :: 0 <= j < i ==> entries[j].doc.text != t
  {
    if entries == [] then 0
    else if entries[0].doc.text == t then 0
    else 1 + IndexOfText(entries[1..], t)
  }

  /** One forEach step: a new text is appended; a known text is replaced,
      in place, only by a strictly better score. */
  function Put(entries: seq<Scored>, c: Scored): seq<Scored>
  {
    var i := IndexOfText(entries, c.doc.text);
    if i == |entries| then entries + [c]
    else if c.score > entries[i].score then entries[i := c]
    else entries
  }

  /** The values of the Map after every candidate, in key insertion order. */
  function Dedup(cs: seq<Scored>): seq<Scored>
  {
    if cs == [] then [] else Put(Dedup(cs[..|cs| - 1]), cs[|cs| - 1])
  }

  lemma PutTexts(entries: seq<Scored>, c: Scored)
    ensures Texts(Put(entries, c)) == SetAdd(Texts(entries), c.doc.text)
  {
    var i := IndexOfText(entries, c.doc.text);
    if i == |entries| {
      assert c.doc.text !in Texts(entries);
      assert Texts(entries + [c]) == Texts(entries) + [c.doc.text];
    } else {
      assert Texts(entries)[i] == c.doc.text;
      if c.score > entries[i].score {
        assert Texts(entries[i := c]) == Texts(entries);
      }
    }
  }

  /** The merged texts are the candidate texts, each once, in order of first
      appearance. */
  lemma {:induction false} DedupTexts(cs: seq<Scored>)
    ensures Texts(Dedup(cs)) == SetOf(Texts(cs))
  {
    if cs != [] {
      var init := cs[..|cs| - 1];
      DedupTexts(init);
      PutTexts(Dedup(init), cs[|cs| - 1]);
      assert Texts(cs)[..|cs| - 1] == Texts(init);
    }
  }

  /** Candidate i is the one the Map keeps for its text: no candidate with
      that text scores more, and every earlier one scores strictly less. */
  ghost predicate Kept(cs: seq<Scored>, i: nat)
    requires i < |cs|
  {
    forall j :: 0 <= j < |cs| && cs[j].doc.text == cs[i].doc.text ==>
      cs[j].score <= cs[i].score && (j < i ==> cs[j].score < cs[i].score)
  }

  /** Every merged entry is a candidate kept for its text. */
  lemma {:induction false} DedupKeepsBest(cs: seq<Scored>, k: nat)
    requires k < |Dedup(cs)|
    ensures exists i :: 0 <= i < |cs| && Dedup(cs)[k] == cs[i] && Kept(cs, i)
  {
    var init, c := cs[..|cs| - 1], cs[|cs| - 1];
    var entries := Dedup(init);
    var n := IndexOfText(entries, c.doc.text);
    DedupTexts(init);
    SetOfSpec(Texts(init));
    if n < |entries| && c.score > entries[n].score && k == n {
      // c replaces the entry for its text
      DedupKeepsBest(init, n);
      var i :| 0 <= i < |init| && entries[n] == init[i] && Kept(init, i);
      KeptAfterReplace(cs, i);
    } else if n == |entries| && k == n {
      // c is the first candidate with its text
      assert c.doc.text !in Texts(init);
      KeptFirst(cs);
    } else {
      DedupKeepsBest(init, k);
      var i :| 0 <= i < |init| && entries[k] == init[i] && Kept(init, i);
      assert Dedup(cs)[k] == entries[k];
      if k == n {
        KeptStays(cs, i);
      } else {
        assert Texts(entries)[k] != c.doc.text by {
          NoDuplicatesAt(Texts(entries), k, n);
        }
        KeptOther(cs, i);
      }
    }
  }

  lemma NoDuplicatesAt(s: seq<string>, k: nat, n: nat)
    requires NoDuplicates(s) && k < |s| && k != n
    ensures n < |s| ==> s[k] != s[n]
  {
  }

  /** A candidate whose text no earlier candidate has is kept. */
  lemma KeptFirst(cs: seq<Scored>)
    requires |cs| > 0
    requires cs[|cs| - 1].doc.text !in Texts(cs[..|cs| - 1])
    ensures Kept(cs, |cs| - 1)
  {
    var last := |cs| - 1;
    forall j | 0 <= j < last ensures cs[j].doc.text != cs[last].doc.text {
      assert Texts(cs[..last])[j] == cs[j].doc.text;
    }
  }

  /** A better last candidate takes over from the one kept so far. */
  lemma KeptAfterReplace(cs: seq<Scored>, i: nat)
    requires |cs| > 0 && i < |cs| - 1
    requires Kept(cs[..|cs| - 1], i)
    requires cs[i].doc.text == cs[|cs| - 1].doc.text && cs[|cs| - 1].score > cs[i].score
    ensures Kept(cs, |cs| - 1)
  {
    var init := cs[..|cs| - 1];
    forall j | 0 <= j < |cs| - 1 && cs[j].doc.text == cs[|cs| - 1].doc.text
      ensures cs[j].score < cs[|cs| - 1].score
    {
      assert init[j] == cs[j] && init[i] == cs[i];
    }
  }

  /** A last candidate that is not better leaves the kept one kept. */
  lemma KeptStays(cs: seq<Scored>, i: nat)
    requires |cs| > 0 && i < |cs| - 1
    requires Kept(cs[..|cs| - 1], i)
    requires cs[i].doc.text == cs[|cs| - 1].doc.text ==> cs[|cs| - 1].score <= cs[i].score
    ensures Kept(cs, i)
  {
    var init := cs[..|cs| - 1];
    forall j | 0 <= j < |cs| - 1 && cs[j].doc.text == cs[i].doc.text
      ensures cs[j].score <= cs[i].score && (j < i ==> cs[j].score < cs[i].score)
    {
      assert init[j] == cs[j] && init[i] == cs[i];
    }
  }

  lemma KeptOther(cs: seq<Scored>, i: nat)
    requires |cs| > 0 && i < |cs| - 1
    requires Kept(cs[..|cs| - 1], i)
    requires cs[i].doc.text != cs[|cs| - 1].doc.text
    ensures Kept(cs, i)
  {
    KeptStays(cs, i);
  }

  // ---------------------------------------------------------------------
  // The retrieval as a whole

  /** The best InitialCandidates documents for one query. */
  function TopForQuery(pool: seq<Document>, query: string, queryEmbedding: Vector, sqrt: real -> real): seq<Scored>
  {
    Take(SortDesc(ScoreAll(pool, queryEmbedding, ExtractKeywords(query), sqrt)), InitialCandidates)
  }

  /** candidateDocuments after the query loop; None when an embedding fails. */
  function Candidates(queries: seq<string>, pool: seq<Document>, embed: Embedder, sqrt: real -> real): Option<seq<Scored>>
  {
    if queries == [] then Some([])
    else
      var before := Candidates(queries[..|queries| - 1], pool, embed, sqrt);
      var q := queries[|queries| - 1];
      var e := embed(q);
      if before.None? || e.None? then None
      else Some(before.value + TopForQuery(pool, q, e.value, sqrt))
  }

  function FinalRanked(cs: seq<Scored>): seq<Scored>
  {
    Take(SortDesc(Dedup(cs)), FinalCandidates)
  }

  /** The retrieved context; empty without queries or documents, None when
      an embedding fails. */
  function RetrievedContext(queries: seq<string>, pool: seq<Document>, embed: Embedder, sqrt: real -> real): Option<string>
  {
    if queries == [] || pool == [] then Some([])
    else
      var cs := Candidates(queries, pool, embed, sqrt);
      if cs.None? then None
      else Some(Join(ContextSeparator, SetOf(Texts(FinalRanked(cs.value)))))
  }

  /** The query loop: score the pool for each query and keep its best. */
  method CollectCandidates(queries: seq<string>, pool: seq<Document>, embed: Embedder, sqrt: real -> real)
    returns (candidates: Option<seq<Scored>>)
    ensures candidates == Candidates(queries, pool, embed, sqrt)
  {
    var candidateDocuments: seq<Scored> := [];
    var q := 0;
    while q < |queries|
      invariant 0 <= q <= |queries|
      invariant Candidates(queries[..q], pool, embed, sqrt) == Some(candidateDocuments)
    {
      assert queries[..q + 1][..q] == queries[..q];
      var query := queries[q];
      var queryEmbedding := embed(query);
      if queryEmbedding.None? {
        CandidatesFail(queries, q, pool, embed, sqrt);
        return None;
      }
      candidateDocuments := candidateDocuments + TopForQuery(pool, query, queryEmbedding.value, sqrt);
      q := q + 1;
    }
    assert queries[..q] == queries;
    return Some(candidateDocuments);
  }

  /** The forEach that fills the Map keyed by text. */
  method MergeByText(candidateDocuments: seq<Scored>) returns (entries: seq<Scored>)
    ensures entries == Dedup(candidateDocuments)
  {
    entries := [];
    var k := 0;
    while k < |candidateDocuments|
      invariant 0 <= k <= |candidateDocuments|
      invariant entries == Dedup(candidateDocuments[..k])
    {
      assert candidateDocuments[..k + 1][..k] == candidateDocuments[..k];
      var doc := candidateDocuments[k];
      var i := IndexOfText(entries, doc.doc.text);
      if i == |entries| {
        entries := entries + [doc];
      } else if doc.score > entries[i].score {
        entries := entries[i := doc];
      }
      k := k + 1;
    }
    assert candidateDocuments[..k] == candidateDocuments;
  }

  /** The forEach that adds the final texts to uniqueRetrievedTexts. */
  method UniqueTexts(finalRanked: seq<Scored>) returns (unique: seq<string>)
    ensures unique == SetOf(Texts(finalRanked))
  {
    unique := [];
    var f := 0;
    while f < |finalRanked|
      invariant 0 <= f <= |finalRanked|
      invariant unique == SetOf(Texts(finalRanked[..f]))
    {
      assert Texts(finalRanked[..f + 1]) == Texts(finalRanked[..f]) + [finalRanked[f].doc.text];
      unique := SetAdd(unique, finalRanked[f].doc.text);
      f := f + 1;
    }
    assert finalRanked[..f] == finalRanked;
  }

  /** The retrieval block of /api/chat. */
  method Retrieve(queries: seq<string>, pool: seq<Document>, embed: Embedder, sqrt: real -> real)
    returns (context: Option<string>)
    ensures context == RetrievedContext(queries, pool, embed, sqrt)
  {
    if queries == [] || pool == [] {
      return Some([]);
    }
    var candidates := CollectCandidates(queries, pool, embed, sqrt);
    if candidates.None? {
      return None;
    }
    var entries := MergeByText(candidates.value);
    var finalRanked := Take(SortDesc(entries), FinalCandidates);
    var unique := UniqueTexts(finalRanked);
    context := Some(Join(ContextSeparator, unique));
  }

  /** A failing embedding at query q makes the whole retrieval fail. */
  lemma {:induction false} CandidatesFail(queries: seq<string>, q: nat, pool: seq<Document>, embed: Embedder, sqrt: real -> real)
    requires q < |queries| && embed(queries[q]).None?
    ensures Candidates(queries, pool, embed, sqrt).None?
    decreases |queries|
  {
    if q < |queries| - 1 {
      var init := queries[..|queries| - 1];
      assert init[q] == queries[q];
      CandidatesFail(init, q, pool, embed, sqrt);
    }
  }

  // ---------------------------------------------------------------------
  // What the retrieval promises

  /** Every candidate is a pool document, each query contributes at most
      InitialCandidates of them, and they score at least as well as the pool
      documents the query left out. */
  lemma TopForQuerySpec(pool: seq<Document>, query: string, e: Vector, sqrt: real -> real)
    ensures var scored := ScoreAll(pool, e, ExtractKeywords(query), sqrt);
            var top := TopForQuery(pool, query, e, sqrt);
            var sorted := SortDesc(scored);
            |top| <= InitialCandidates && (|pool| >= InitialCandidates ==> |top| == InitialCandidates)
            && (forall x :: x in top ==> x in scored)
            && (forall x, y :: x in top && y in sorted[|top|..] ==> x.score >= y.score)
  {
    var scored := ScoreAll(pool, e, ExtractKeywords(query), sqrt);
    var sorted := SortDesc(scored);
    SortDescSpec(scored);
    TopK(sorted, InitialCandidates);
    assert |sorted| == |scored| by {
      assert |multiset(sorted)| == |multiset(scored)|;
    }
    forall x | x in TopForQuery(pool, query, e, sqrt) ensures x in scored {
      assert x in multiset(sorted);
    }
  }

  /** The final documents are merged candidates: at most FinalCandidates of
      them, sorted by score, none outscored by a merged entry left out. */
  lemma FinalRankedSpec(cs: seq<Scored>)
    ensures var merged := SortDesc(Dedup(cs));
            var fin := FinalRanked(cs);
            |fin| <= FinalCandidates && SortedDesc(fin)
            && (forall x :: x in fin ==> x in Dedup(cs))
            && (forall x, y :: x in fin && y in merged[|fin|..] ==> x.score >= y.score)
  {
    var merged := SortDesc(Dedup(cs));
    SortDescSpec(Dedup(cs));
    TopK(merged, FinalCandidates);
    forall x | x in FinalRanked(cs) ensures x in Dedup(cs) {
      assert x in multiset(merged);
    }
  }

  /** The context joins at most FinalCandidates distinct texts, each of them
      the text of some candidate. */
  lemma ContextTexts(cs: seq<Scored>)
    ensures var texts := SetOf(Texts(FinalRanked(cs)));
            |texts| <= FinalCandidates && NoDuplicates(texts)
            && forall t :: t in texts ==> t in Texts(cs)
  {
    var fin := FinalRanked(cs);
    FinalRankedSpec(cs);
    SetOfLength(Texts(fin));
    SetOfSpec(Texts(fin));
    DedupTexts(cs);
    SetOfSpec(Texts(cs));
    forall t | t in SetOf(Texts(fin)) ensures t in Texts(cs) {
      var i :| 0 <= i < |fin| && Texts(fin)[i] == t;
      assert fin[i] in Dedup(cs);
      var k :| 0 <= k < |Dedup(cs)| && Dedup(cs)[k] == fin[i];
      assert Texts(Dedup(cs))[k] == t;
    }
  }
}

/** analyzePatientTranscript: which key history points the student's
    questions elicited, judged by embedding similarity, and the summary text
    handed to the physician conversation. */
module Coverage {
  import opened Wrappers
  import opened JsString
  import opened Similarity
  import opened Documents
  import opened OrderedSet

  const StudentPrefix: string := "Student: "
  const SimilarityThreshold: real := 0.7

  const NoQuestionsSummary: string :=
    "The student did not ask any discernible questions during the patient interaction."
  const SummaryHeader: string := "Student's History Taking Performance:\n\n"
  const ElicitedHeading: string := "Information Successfully Elicited:\n- "
  const NoneElicited: string := "No specific key information points were identified as successfully elicited.\n"
  const MissedHeading: string := "\nInformation Potentially Missed (Areas for Further Inquiry):\n- "
  const AllElicited: string := "\nAll identified key information points were successfully elicited.\n"
  const ItemSeparator: string := "\n- "

  datatype Analysis = Analysis(summary: string, covered: seq<string>, missed: seq<string>)

  // ---------------------------------------------------------------------
  // Student questions

  /** The text of the student's lines, prefix removed and trimmed. */
  function Questions(lines: seq<string>): seq<string>
  {
    if lines == [] then []
    else
      (if StartsWith(lines[0], StudentPrefix) then [Trim(Substring(lines[0], |StudentPrefix|))] else [])
        + Questions(lines[1..])
  }

  function StudentQuestions(transcript: string): seq<string>
  {
    Questions(Split(transcript, '\n'))
  }

  /** A question is the trimmed remainder of some line that starts with the
      student prefix, and every such line gives one. */
  lemma {:induction false} QuestionsSpec(lines: seq<string>)
    ensures forall q :: q in Questions(lines) <==>
              exists i :: 0 <= i < |lines| && StartsWith(lines[i], StudentPrefix) && q == Trim(lines[i][|StudentPrefix|..])
  {
    if lines != [] {
      QuestionsSpec(lines[1..]);
      forall q ensures q in Questions(lines) <==>
                exists i :: 0 <= i < |lines| && StartsWith(lines[i], StudentPrefix) && q == Trim(lines[i][|StudentPrefix|..])
      {
        if q in Questions(lines[1..]) {
          var i :| 0 <= i < |lines[1..]| && StartsWith(lines[1..][i], StudentPrefix) && q == Trim(lines[1..][i][|StudentPrefix|..]);
          assert lines[i + 1] == lines[1..][i];
        }
        if exists i :: 0 <= i < |lines| && StartsWith(lines[i], StudentPrefix) && q == Trim(lines[i][|StudentPrefix|..]) {
          var i :| 0 <= i < |lines| && StartsWith(lines[i], StudentPrefix) && q == Trim(lines[i][|StudentPrefix|..]);
          if i > 0 {
            assert lines[1..][i - 1] == lines[i];
          }
        }
      }
    }
  }

  /** Promise.all over the question embeddings. */
  function EmbedQuestions(qs: seq<string>, embed: Embedder): (r: Option<seq<Vector>>)
    ensures r.Some? <==> forall i :: 0 <= i < |qs| ==> embed(qs[i]).Some?
    ensures r.Some? ==> |r.value| == |qs| && forall i :: 0 <= i < |qs| ==> embed(qs[i]) == Some(r.value[i])
  {
    if qs == [] then Some([])
    else
      var e := embed(qs[0]);
      var rest := EmbedQuestions(qs[1..], embed);
      assert forall i :: 1 <= i < |qs| ==> qs[i] == qs[1..][i - 1];
      if e.None? || rest.None? then None else Some([e.value] + rest.value)
  }

  // ---------------------------------------------------------------------
  // Which points were elicited

  /** Some question is at least SimilarityThreshold similar to the point. */
  predicate Elicits(kp: KeyPoint, questions: seq<Vector>, sqrt: real -> real)
  {
    exists j :: 0 <= j < |questions| && Cosine(kp.embedding, questions[j], sqrt) >= SimilarityThreshold
  }

  function Points(kps: seq<KeyPoint>): (r: seq<string>)
    ensures |r| == |kps| && forall i :: 0 <= i < |kps| ==> r[i] == kps[i].point
  {
    if kps == [] then [] else Points(kps[..|kps| - 1]) + [kps[|kps| - 1].point]
  }

  /** The points of the elicited key points, in key point order. */
  function Matching(kps: seq<KeyPoint>, questions: seq<Vector>, sqrt: real -> real): seq<string>
  {
    if kps == [] then []
    else
      var last := kps[|kps| - 1];
      Matching(kps[..|kps| - 1], questions, sqrt) + (if Elicits(last, questions, sqrt) then [last.point] else [])
  }

  function CoveredPoints(kps: seq<KeyPoint>, questions: seq<Vector>, sqrt: real -> real): seq<string>
  {
    SetOf(Matching(kps, questions, sqrt))
  }

  function MissedPoints(kps: seq<KeyPoint>, questions: seq<Vector>, sqrt: real -> real): seq<string>
  {
    FilterOut(SetOf(Points(kps)), Matching(kps, questions, sqrt))
  }

  /** Some key point with text p is elicited. */
  ghost predicate ElicitedPoint(kps: seq<KeyPoint>, questions: seq<Vector>, sqrt: real -> real, p: string)
  {
    exists i :: 0 <= i < |kps| && kps[i].point == p && Elicits(kps[i], questions, sqrt)
  }

  lemma ElicitedPointSnoc(kps: seq<KeyPoint>, questions: seq<Vector>, sqrt: real -> real, p: string)
    requires kps != []
    ensures var init, last := kps[..|kps| - 1], kps[|kps| - 1];
            ElicitedPoint(kps, questions, sqrt, p) <==>
              ElicitedPoint(init, questions, sqrt, p) || (last.point == p && Elicits(last, questions, sqrt))
  {
    var init := kps[..|kps| - 1];
    if ElicitedPoint(init, questions, sqrt, p) {
      var i :| 0 <= i < |init| && init[i].point == p && Elicits(init[i], questions, sqrt);
      assert kps[i] == init[i];
    }
    if ElicitedPoint(kps, questions, sqrt, p) {
      var i :| 0 <= i < |kps| && kps[i].point == p && Elicits(kps[i], questions, sqrt);
      if i < |init| {
        assert init[i] == kps[i];
      }
    }
  }

  lemma {:induction false} MatchingMember(kps: seq<KeyPoint>, questions: seq<Vector>, sqrt: real -> real, p: string)
    ensures p in Matching(kps, questions, sqrt) <==> ElicitedPoint(kps, questions, sqrt, p)
  {
    if kps != [] {
      MatchingMember(kps[..|kps| - 1], questions, sqrt, p);
      ElicitedPointSnoc(kps, questions, sqrt, p);
    }
  }

  lemma MatchingSpec(kps: seq<KeyPoint>, questions: seq<Vector>, sqrt: real -> real)
    ensures forall p :: p in Matching(kps, questions, sqrt) <==>
              exists i :: 0 <= i < |kps| && kps[i].point == p && Elicits(kps[i], questions, sqrt)
  {
    forall p ensures p in Matching(kps, questions, sqrt) <==> ElicitedPoint(kps, questions, sqrt, p) {
      MatchingMember(kps, questions, sqrt, p);
    }
  }

  /** A point is covered exactly when some key point with that text has a
      question at least SimilarityThreshold similar to it. */
  lemma CoveredIff(kps: seq<KeyPoint>, questions: seq<Vector>, sqrt: real -> real, p: string)
    ensures p in CoveredPoints(kps, questions, sqrt) <==>
              exists i :: 0 <= i < |kps| && kps[i].point == p && Elicits(kps[i], questions, sqrt)
  {
    SetOfSpec(Matching(kps, questions, sqrt));
    MatchingSpec(kps, questions, sqrt);
  }

  /** Covered and missed split the distinct key point texts: no point is in
      both, every point is in one of them, neither repeats a point, and
      missed keeps the order of first occurrence. */
  lemma CoveredMissedPartition(kps: seq<KeyPoint>, questions: seq<Vector>, sqrt: real -> real)
    ensures var covered, missed := CoveredPoints(kps, questions, sqrt), MissedPoints(kps, questions, sqrt);
            (forall p :: p in covered ==> p !in missed)
            && (forall p :: p in covered || p in missed <==> p in Points(kps))
            && NoDuplicates(covered) && NoDuplicates(missed)
            && missed == FilterOut(SetOf(Points(kps)), covered)
  {
    var m := Matching(kps, questions, sqrt);
    SetOfSpec(m);
    SetOfSpec(Points(kps));
    FilterOutSpec(SetOf(Points(kps)), m);
    FilterOutNoDuplicates(SetOf(Points(kps)), m);
    MatchingSpec(kps, questions, sqrt);
    forall p | p in m ensures p in Points(kps) {
      var i :| 0 <= i < |kps| && kps[i].point == p && Elicits(kps[i], questions, sqrt);
      assert Points(kps)[i] == p;
    }
    FilterOutSameMembers(SetOf(Points(kps)), m, SetOf(m));
  }

  // ---------------------------------------------------------------------
  // The summary

  /** The part of the summary about elicited points. */
  function ElicitedPart(covered: seq<string>): string
  {
    if covered != [] then ElicitedHeading + Join(ItemSeparator, covered) + "\n" else NoneElicited
  }

  /** The part of the summary about missed points. */
  function MissedPart(covered: seq<string>, missed: seq<string>): string
  {
    if missed != [] then MissedHeading + Join(ItemSeparator, missed) + "\n"
    else if covered != [] then AllElicited
    else ""
  }

  function Summary(covered: seq<string>, missed: seq<string>): string
  {
    SummaryHeader + ElicitedPart(covered) + MissedPart(covered, missed)
  }

  /** t occurs in s at position a. */
  predicate OccursAt(s: string, t: string, a: int)
  {
    0 <= a <= |s| - |t| && s[a..a + |t|] == t
  }

  /** t occurs in s. */
  ghost predicate Contains(s: string, t: string)
  {
    exists a :: OccursAt(s, t, a)
  }

  lemma ContainsIn(pre: string, t: string, post: string, s: string)
    requires s == pre + t + post
    ensures Contains(s, t)
  {
    assert s[|pre|..|pre| + |t|] == t;
    assert OccursAt(s, t, |pre|);
  }

  lemma ContainsWithin(s: string, u: string, t: string, pre: string, post: string)
    requires Contains(u, t) && s == pre + u + post
    ensures Contains(s, t)
  {
    var a :| OccursAt(u, t, a);
    assert s[|pre| + a..|pre| + a + |t|] == u[a..a + |t|];
    assert OccursAt(s, t, |pre| + a);
  }

  /** Every part of a join occurs in it. */
  lemma {:induction false} JoinContains(sep: string, parts: seq<string>, i: nat)
    requires i < |parts|
    ensures Contains(Join(sep, parts), parts[i])
  {
    if |parts| == 1 {
      ContainsIn([], parts[0], [], Join(sep, parts));
    } else if i == 0 {
      ContainsIn([], parts[0], sep + Join(sep, parts[1..]), Join(sep, parts));
    } else {
      JoinContains(sep, parts[1..], i - 1);
      assert parts[1..][i - 1] == parts[i];
      ContainsWithin(Join(sep, parts), Join(sep, parts[1..]), parts[i], parts[0] + sep, []);
    }
  }

  /** Every item of a list occurs in the list's section of the summary. */
  lemma ItemMentioned(heading: string, items: seq<string>, p: string)
    requires p in items
    ensures Contains(heading + Join(ItemSeparator, items) + "\n", p)
  {
    var i :| 0 <= i < |items| && items[i] == p;
    JoinContains(ItemSeparator, items, i);
    ContainsWithin(heading + Join(ItemSeparator, items) + "\n", Join(ItemSeparator, items), p, heading, "\n");
  }

  lemma CoveredMentioned(covered: seq<string>, missed: seq<string>, p: string)
    requires p in covered
    ensures Contains(Summary(covered, missed), p)
  {
    ItemMentioned(ElicitedHeading, covered, p);
    ContainsWithin(Summary(covered, missed), ElicitedPart(covered), p, SummaryHeader, MissedPart(covered, missed));
  }

  lemma MissedMentioned(covered: seq<string>, missed: seq<string>, p: string)
    requires p in missed
    ensures Contains(Summary(covered, missed), p)
  {
    ItemMentioned(MissedHeading, missed, p);
    ContainsWithin(Summary(covered, missed), MissedPart(covered, missed), p, SummaryHeader + ElicitedPart(covered), []);
  }

  /** The summary names every covered and every missed point, and says when
      nothing was elicited or when everything was. */
  lemma SummaryMentions(covered: seq<string>, missed: seq<string>)
    ensures forall p :: p in covered || p in missed ==> Contains(Summary(covered, missed), p)
    ensures covered == [] ==> Contains(Summary(covered, missed), NoneElicited)
    ensures covered != [] && missed == [] ==> Contains(Summary(covered, missed), AllElicited)
    ensures missed != [] ==> Contains(Summary(covered, missed), MissedHeading)
  {
    var s := Summary(covered, missed);
    var first, second := ElicitedPart(covered), MissedPart(covered, missed);
    forall p | p in covered || p in missed ensures Contains(s, p) {
      if p in covered {
        CoveredMentioned(covered, missed, p);
      } else {
        MissedMentioned(covered, missed, p);
      }
    }
    if covered == [] {
      ContainsIn(SummaryHeader, first, second, s);
    }
    if missed != [] {
      ContainsIn([], MissedHeading, Join(ItemSeparator, missed) + "\n", second);
      ContainsWithin(s, second, MissedHeading, SummaryHeader + first, []);
    } else if covered != [] {
      ContainsIn(SummaryHeader + first, second, [], s);
    }
  }

  // ---------------------------------------------------------------------
  // analyzePatientTranscript

  /** What analyzePatientTranscript resolves to; None when a question
      embedding fails. */
  function Analyze(transcript: string, kps: seq<KeyPoint>, embed: Embedder, sqrt: real -> real): Option<Analysis>
  {
    var questions := StudentQuestions(transcript);
    if questions == [] then Some(Analysis(NoQuestionsSummary, [], SetOf(Points(kps))))
    else
      var qs := EmbedQuestions(questions, embed);
      if qs.None? then None
      else
        var covered := CoveredPoints(kps, qs.value, sqrt);
        var missed := MissedPoints(kps, qs.value, sqrt);
        Some(Analysis(Summary(covered, missed), covered, missed))
  }

  /** Once the questions embed, a point is covered exactly when some key
      point with that text reaches the threshold against the embedding of
      some student question. */
  lemma AnalyzeCovered(transcript: string, kps: seq<KeyPoint>, embed: Embedder, sqrt: real -> real, p: string)
    requires Analyze(transcript, kps, embed, sqrt).Some?
    ensures var questions := StudentQuestions(transcript);
            p in Analyze(transcript, kps, embed, sqrt).value.covered <==>
              exists i, k :: 0 <= i < |kps| && 0 <= k < |questions| && kps[i].point == p && embed(questions[k]).Some?
                && Cosine(kps[i].embedding, embed(questions[k]).value, sqrt) >= SimilarityThreshold
  {
    var questions := StudentQuestions(transcript);
    if questions != [] {
      var qs := EmbedQuestions(questions, embed).value;
      CoveredIff(kps, qs, sqrt, p);
      if p in Analyze(transcript, kps, embed, sqrt).value.covered {
        var i :| 0 <= i < |kps| && kps[i].point == p && Elicits(kps[i], qs, sqrt);
        var k :| 0 <= k < |qs| && Cosine(kps[i].embedding, qs[k], sqrt) >= SimilarityThreshold;
        assert embed(questions[k]) == Some(qs[k]);
      }
      if exists i, k :: 0 <= i < |kps| && 0 <= k < |questions| && kps[i].point == p && embed(questions[k]).Some?
                && Cosine(kps[i].embedding, embed(questions[k]).value, sqrt) >= SimilarityThreshold {
        var i, k :| 0 <= i < |kps| && 0 <= k < |questions| && kps[i].point == p && embed(questions[k]).Some?
                && Cosine(kps[i].embedding, embed(questions[k]).value, sqrt) >= SimilarityThreshold;
        assert embed(questions[k]) == Some(qs[k]);
        assert Elicits(kps[i], qs, sqrt);
      }
    }
  }

  /** The question loop for one key point: is some question similar enough?
      It stops at the first one that is. */
  method AnyQuestionSimilar(keyPoint: KeyPoint, questions: seq<Vector>, sqrt: real -> real) returns (found: bool)
    ensures found == Elicits(keyPoint, questions, sqrt)
  {
    found := false;
    var j := 0;
    while j < |questions|
      invariant 0 <= j <= |questions|
      invariant forall jj :: 0 <= jj < j ==> Cosine(keyPoint.embedding, questions[jj], sqrt) < SimilarityThreshold
    {
      var similarity := CosineSimilarity(keyPoint.embedding, questions[j], sqrt);
      if similarity >= SimilarityThreshold {
        found := true;
        return;
      }
      j := j + 1;
    }
  }

  /** The key point loop. */
  method MarkCovered(kps: seq<KeyPoint>, questions: seq<Vector>, sqrt: real -> real)
    returns (covered: seq<string>, missed: seq<string>)
    ensures covered == CoveredPoints(kps, questions, sqrt)
    ensures missed == MissedPoints(kps, questions, sqrt)
  {
    covered := [];
    missed := SetOf(Points(kps));
    FilterOutNone(missed);
    var k := 0;
    while k < |kps|
      invariant 0 <= k <= |kps|
      invariant covered == SetOf(Matching(kps[..k], questions, sqrt))
      invariant missed == FilterOut(SetOf(Points(kps)), Matching(kps[..k], questions, sqrt))
    {
      covered, missed := MarkOne(kps, k, questions, sqrt, covered, missed);
      k := k + 1;
    }
    assert kps[..k] == kps;
  }

  /** The body of the key point loop: when a question is similar enough, add
      the point to covered and delete it from missed. */
  method MarkOne(kps: seq<KeyPoint>, k: nat, questions: seq<Vector>, sqrt: real -> real,
                 covered: seq<string>, missed: seq<string>) returns (covered': seq<string>, missed': seq<string>)
    requires k < |kps|
    requires covered == SetOf(Matching(kps[..k], questions, sqrt))
    requires missed == FilterOut(SetOf(Points(kps)), Matching(kps[..k], questions, sqrt))
    ensures covered' == SetOf(Matching(kps[..k + 1], questions, sqrt))
    ensures missed' == FilterOut(SetOf(Points(kps)), Matching(kps[..k + 1], questions, sqrt))
  {
    var keyPoint := kps[k];
    var found := AnyQuestionSimilar(keyPoint, questions, sqrt);
    covered', missed' := covered, missed;
    if found {
      covered' := SetAdd(covered', keyPoint.point);
      if keyPoint.point in missed' {
        missed' := SetDelete(missed', keyPoint.point);
      }
    }
    CoverStep(kps, k, questions, sqrt, found, covered, missed, covered', missed');
  }

  /** One turn of the key point loop. */
  lemma CoverStep(kps: seq<KeyPoint>, k: nat, questions: seq<Vector>, sqrt: real -> real, found: bool,
                  covered: seq<string>, missed: seq<string>, covered': seq<string>, missed': seq<string>)
    requires k < |kps| && found == Elicits(kps[k], questions, sqrt)
    requires covered == SetOf(Matching(kps[..k], questions, sqrt))
    requires missed == FilterOut(SetOf(Points(kps)), Matching(kps[..k], questions, sqrt))
    requires covered' == if found then SetAdd(covered, kps[k].point) else covered
    requires missed' == if found && kps[k].point in missed then SetDelete(missed, kps[k].point) else missed
    ensures covered' == SetOf(Matching(kps[..k + 1], questions, sqrt))
    ensures missed' == FilterOut(SetOf(Points(kps)), Matching(kps[..k + 1], questions, sqrt))
  {
    var before, after := Matching(kps[..k], questions, sqrt), Matching(kps[..k + 1], questions, sqrt);
    MatchingStep(kps, k, questions, sqrt);
    if found {
      assert after == before + [kps[k].point];
      SetOfSnoc(before, kps[k].point);
      MissedStep(SetOf(Points(kps)), before, kps[k].point, missed');
    } else {
      assert after == before;
    }
  }

  lemma MatchingStep(kps: seq<KeyPoint>, k: nat, questions: seq<Vector>, sqrt: real -> real)
    requires k < |kps|
    ensures Matching(kps[..k + 1], questions, sqrt)
            == Matching(kps[..k], questions, sqrt) + (if Elicits(kps[k], questions, sqrt) then [kps[k].point] else [])
  {
    assert kps[..k + 1][..k] == kps[..k];
  }

  /** One deletion from the missed set; deleting an absent point changes nothing. */
  lemma MissedStep(s: seq<string>, ms: seq<string>, p: string, missed: seq<string>)
    requires missed == (if p in FilterOut(s, ms) then SetDelete(FilterOut(s, ms), p) else FilterOut(s, ms))
    ensures missed == FilterOut(s, ms + [p])
  {
    FilterOutSnoc(s, ms, p);
    if p !in FilterOut(s, ms) {
      DeleteAbsent(FilterOut(s, ms), p);
    }
  }

  method AnalyzePatientTranscript(transcript: string, kps: seq<KeyPoint>, embed: Embedder, sqrt: real -> real)
    returns (r: Option<Analysis>)
    ensures r == Analyze(transcript, kps, embed, sqrt)
  {
    var questions := StudentQuestions(transcript);
    if questions == [] {
      return Some(Analysis(NoQuestionsSummary, [], SetOf(Points(kps))));
    }
    var qs := EmbedQuestions(questions, embed);
    if qs.None? {
      return None;
    }
    var covered, missed := MarkCovered(kps, qs.value, sqrt);
    r := Some(Analysis(Summary(covered, missed), covered, missed));
  }

  /** Without student questions nothing is covered and every distinct point
      is missed, whatever the embedding service does. */
  lemma NoQuestions(transcript: string, kps: seq<KeyPoint>, embed: Embedder, sqrt: real -> real)
    requires forall line :: line in Split(transcript, '\n') ==> !StartsWith(line, StudentPrefix)
    ensures var r := Analyze(transcript, kps, embed, sqrt);
            r.Some? && r.value.covered == [] && r.value.summary == NoQuestionsSummary
            && (forall p :: p in r.value.missed <==> p in Points(kps))
  {
    var lines := Split(transcript, '\n');
    forall i | 0 <= i < |lines| ensures !StartsWith(lines[i], StudentPrefix) {
      assert lines[i] in lines;
    }
    NoStudentLines(lines);
    SetOfSpec(Points(kps));
  }

  lemma {:induction false} NoStudentLines(lines: seq<string>)
    requires forall i :: 0 <= i < |lines| ==> !StartsWith(lines[i], StudentPrefix)
    ensures Questions(lines) == []
  {
    if lines != [] {
      forall i | 0 <= i < |lines[1..]| ensures !StartsWith(lines[1..][i], StudentPrefix) {
        assert lines[1..][i] == lines[i + 1];
      }
      NoStudentLines(lines[1..]);
    }
  }
}

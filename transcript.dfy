/** processTranscriptForRAG: split a patient transcript into lines, keep the
    meaningful ones, make one window per kept line holding up to two previous
    lines as overlap, and embed every window. */
module Transcript {
  import opened Wrappers
  import opened JsString
  import opened Keywords
  import opened Similarity
  import opened Documents

  const TranscriptSource: string := "patient_transcript_dynamic"
  /** How many previous lines a window repeats. */
  const Overlap: nat := 2
  /** A line is kept when its trimmed UTF-16 length exceeds this. */
  const MinLineLength: nat := 20

  predicate Meaningful(line: string)
  {
    JsLength(Trim(line)) > MinLineLength
  }

  /** `.filter(line => line.trim().length > 20)`. */
  function Retained(lines: seq<string>): seq<string>
  {
    if lines == [] then []
    else (if Meaningful(lines[0]) then [lines[0]] else []) + Retained(lines[1..])
  }

  function Min(a: nat, b: nat): nat
  {
    if a <= b then a else b
  }

  /** Line i preceded by up to Overlap earlier lines, joined by newlines. */
  function Window(lines: seq<string>, i: nat): string
    requires i < |lines|
  {
    Join("\n", lines[i - Min(i, Overlap)..i + 1])
  }

  datatype TranscriptChunk = TranscriptChunk(text: string, turn: nat, keywords: seq<string>)

  /** The chunks the loop pushes for lines[from..]: a window is kept when it
      is not blank once trimmed. */
  function WindowChunks(lines: seq<string>, from: nat): seq<TranscriptChunk>
    decreases |lines| - from
  {
    if from >= |lines| then []
    else
      var t := Trim(Window(lines, from));
      (if t != [] then [TranscriptChunk(t, from, ExtractKeywords(t))] else []) + WindowChunks(lines, from + 1)
  }

  function TranscriptLines(content: string): seq<string>
  {
    Retained(Split(content, '\n'))
  }

  function ToDocument(c: TranscriptChunk, embedding: Vector): Document
  {
    Document(c.text, embedding, TranscriptMeta(TranscriptSource, c.turn, c.keywords))
  }

  /** Promise.all over the windows: every embedding must succeed. */
  function EmbedWindows(cs: seq<TranscriptChunk>, embed: Embedder): Option<seq<Document>>
  {
    if cs == [] then Some([])
    else
      var e := embed(cs[0].text);
      var rest := EmbedWindows(cs[1..], embed);
      if e.None? || rest.None? then None else Some([ToDocument(cs[0], e.value)] + rest.value)
  }

  /** What processTranscriptForRAG resolves to; None when it rejects. An
      empty transcript, or one without windows, needs no embedding. */
  function TranscriptIndex(content: string, embed: Embedder): Option<seq<Document>>
  {
    if content == [] then Some([])
    else
      var cs := WindowChunks(TranscriptLines(content), 0);
      if cs == [] then Some([]) else EmbedWindows(cs, embed)
  }

  /** Prepending one more line to a window. */
  lemma JoinCons(lines: seq<string>, lo: nat, hi: nat)
    requires lo < hi <= |lines|
    ensures Join("\n", lines[lo..hi]) ==
            if lo + 1 == hi then lines[lo] else lines[lo] + "\n" + Join("\n", lines[lo + 1..hi])
  {
    var parts := lines[lo..hi];
    assert parts[0] == lines[lo];
    if lo + 1 < hi {
      assert parts[1..] == lines[lo + 1..hi];
    }
  }

  /** The inner loop of processTranscriptForRAG: line i with up to Overlap
      earlier lines put in front of it, stopping at the first line. */
  method WindowText(lines: seq<string>, i: nat) returns (currentChunkText: string)
    requires i < |lines|
    ensures currentChunkText == Window(lines, i)
  {
    currentChunkText := lines[i];
    var j := 1;
    while j <= Overlap
      invariant 1 <= j <= Overlap + 1
      invariant j - 1 <= i
      invariant currentChunkText == Join("\n", lines[i - (j - 1)..i + 1])
    {
      if i - j >= 0 {
        JoinCons(lines, i - j, i + 1);
        currentChunkText := lines[i - j] + "\n" + currentChunkText;
      } else {
        break;
      }
      j := j + 1;
    }
    assert i - (j - 1) == i - Min(i, Overlap);
  }

  /** The window loop of processTranscriptForRAG over the kept lines. */
  method OverlapWindows(lines: seq<string>) returns (chunks: seq<TranscriptChunk>)
    ensures chunks == WindowChunks(lines, 0)
  {
    chunks := [];
    var i := 0;
    while i < |lines|
      invariant 0 <= i <= |lines|
      invariant chunks + WindowChunks(lines, i) == WindowChunks(lines, 0)
    {
      chunks := PushWindow(lines, i, chunks);
      i := i + 1;
    }
    assert chunks + [] == chunks;
  }

  /** One turn of the window loop: the trimmed window around line i is kept
      when it is not blank. */
  method PushWindow(lines: seq<string>, i: nat, chunks: seq<TranscriptChunk>) returns (chunks': seq<TranscriptChunk>)
    requires i < |lines|
    ensures chunks' + WindowChunks(lines, i + 1) == chunks + WindowChunks(lines, i)
  {
    var currentChunkText := WindowText(lines, i);
    var trimmedChunk := Trim(currentChunkText);
    chunks' := chunks;
    if trimmedChunk != [] {
      chunks' := chunks + [TranscriptChunk(trimmedChunk, i, ExtractKeywords(trimmedChunk))];
    }
    WindowChunksUnfold(lines, i, trimmedChunk, chunks, chunks');
  }

  /** One turn of the window loop, on the specification. */
  lemma WindowChunksUnfold(lines: seq<string>, i: nat, trimmed: string, before: seq<TranscriptChunk>, after: seq<TranscriptChunk>)
    requires i < |lines| && trimmed == Trim(Window(lines, i))
    requires after == before + (if trimmed != [] then [TranscriptChunk(trimmed, i, ExtractKeywords(trimmed))] else [])
    ensures before + WindowChunks(lines, i) == after + WindowChunks(lines, i + 1)
  {
  }

  /** processTranscriptForRAG. */
  method ProcessTranscriptForRag(content: string, embed: Embedder) returns (r: Option<seq<Document>>)
    ensures r == TranscriptIndex(content, embed)
  {
    if content == [] {
      return Some([]);
    }
    var lines := TranscriptLines(content);
    var chunks := OverlapWindows(lines);
    if chunks == [] {
      return Some([]);
    }
    r := EmbedWindows(chunks, embed);
  }

  // ---------------------------------------------------------------------
  // Properties

  /** The kept lines are exactly the meaningful lines, in input order and
      with repetitions: over growing prefixes each line is appended exactly
      when it is meaningful. */
  lemma {:induction false} RetainedSpec(lines: seq<string>)
    ensures forall l :: l in Retained(lines) <==> l in lines && Meaningful(l)
    ensures forall j :: 0 <= j < |lines| ==>
              Retained(lines[..j + 1]) == Retained(lines[..j]) + (if Meaningful(lines[j]) then [lines[j]] else [])
  {
    if lines != [] {
      RetainedSpec(lines[1..]);
      forall l ensures l in Retained(lines) <==> l in lines && Meaningful(l) {
        assert l in lines <==> l == lines[0] || l in lines[1..];
      }
    }
    forall j | 0 <= j < |lines|
      ensures Retained(lines[..j + 1]) == Retained(lines[..j]) + (if Meaningful(lines[j]) then [lines[j]] else [])
    {
      assert lines[..j + 1] == lines[..j] + [lines[j]];
      RetainedAppend(lines[..j], [lines[j]]);
      assert [lines[j]][1..] == [];
    }
  }

  /** Filtering distributes over concatenation. */
  lemma {:induction false} RetainedAppend(a: seq<string>, b: seq<string>)
    ensures Retained(a + b) == Retained(a) + Retained(b)
  {
    if a != [] {
      assert (a + b)[0] == a[0] && (a + b)[1..] == a[1..] + b;
      RetainedAppend(a[1..], b);
    } else {
      assert a + b == b;
    }
  }

  /** Line 0 stands alone, line 1 follows line 0, and every later window
      repeats the two lines before its own. */
  lemma WindowShape(lines: seq<string>, i: nat)
    requires i < |lines|
    ensures i == 0 ==> Window(lines, i) == lines[0]
    ensures i == 1 ==> Window(lines, i) == lines[0] + "\n" + lines[1]
    ensures i >= 2 ==> Window(lines, i) == lines[i - 2] + "\n" + lines[i - 1] + "\n" + lines[i]
  {
    if i == 0 {
      JoinCons(lines, 0, 1);
    } else if i == 1 {
      JoinCons(lines, 0, 2);
      JoinCons(lines, 1, 2);
    } else {
      JoinCons(lines, i - 2, i + 1);
      JoinCons(lines, i - 1, i + 1);
      JoinCons(lines, i, i + 1);
    }
  }

  /** A window ending in a meaningful line is never blank. */
  lemma WindowNotBlank(lines: seq<string>, i: nat)
    requires i < |lines| && Meaningful(lines[i])
    ensures Trim(Window(lines, i)) != []
  {
    var w := Window(lines, i);
    var parts := lines[i - Min(i, Overlap)..i + 1];
    var last := lines[i];
    assert parts[|parts| - 1] == last;
    JoinEndsWithLast("\n", parts);
    assert Trim(last) != [];
    TrimEmptyIff(last);
    var k :| 0 <= k < |last| && !IsWhitespace(last[k]);
    assert w[|w| - |last| + k] == last[k];
    TrimEmptyIff(w);
  }

  /** The chunk of one line, when its window is not blank. */
  function LineChunk(lines: seq<string>, i: nat): TranscriptChunk
    requires i < |lines|
  {
    var t := Trim(Window(lines, i));
    TranscriptChunk(t, i, ExtractKeywords(t))
  }

  lemma WindowChunksStep(lines: seq<string>, from: nat)
    requires from < |lines| && Meaningful(lines[from])
    ensures WindowChunks(lines, from) == [LineChunk(lines, from)] + WindowChunks(lines, from + 1)
  {
    WindowNotBlank(lines, from);
  }

  /** Over meaningful lines there is one chunk per line from `from` on. */
  lemma {:induction false} WindowChunksLength(lines: seq<string>, from: nat)
    requires from <= |lines|
    requires forall i {:trigger Meaningful(lines[i])} :: 0 <= i < |lines| ==> Meaningful(lines[i])
    ensures |WindowChunks(lines, from)| == |lines| - from
    decreases |lines| - from
  {
    if from < |lines| {
      assert Meaningful(lines[from]);
      WindowChunksStep(lines, from);
      WindowChunksLength(lines, from + 1);
    }
  }

  /** Over meaningful lines, line j's chunk sits at j - from in the chunks
      from `from` on. */
  lemma {:induction false} WindowChunksAt(lines: seq<string>, from: nat, j: nat)
    requires from <= j < |lines|
    requires forall i {:trigger Meaningful(lines[i])} :: 0 <= i < |lines| ==> Meaningful(lines[i])
    ensures j - from < |WindowChunks(lines, from)| && WindowChunks(lines, from)[j - from] == LineChunk(lines, j)
    decreases j - from
  {
    assert Meaningful(lines[from]);
    WindowChunksStep(lines, from);
    if from < j {
      WindowChunksAt(lines, from + 1, j);
    }
    ConsIndex(LineChunk(lines, from), WindowChunks(lines, from + 1), j - from);
  }

  lemma ConsIndex<T>(c: T, rest: seq<T>, d: nat)
    requires d <= |rest|
    ensures |[c] + rest| == |rest| + 1
    ensures ([c] + rest)[d] == if d == 0 then c else rest[d - 1]
  {
  }

  /** Every kept line is meaningful. */
  lemma RetainedMeaningful(raw: seq<string>)
    ensures forall i {:trigger Meaningful(Retained(raw)[i])} :: 0 <= i < |Retained(raw)| ==> Meaningful(Retained(raw)[i])
  {
    var lines := Retained(raw);
    RetainedSpec(raw);
    forall i | 0 <= i < |lines| ensures Meaningful(lines[i]) {
      assert lines[i] in lines;
    }
  }

  /** Over meaningful lines the chunks are the line chunks, none of them blank. */
  lemma ChunksOfMeaningful(lines: seq<string>)
    requires forall i {:trigger Meaningful(lines[i])} :: 0 <= i < |lines| ==> Meaningful(lines[i])
    ensures var cs := WindowChunks(lines, 0);
            |cs| == |lines| &&
            forall i :: 0 <= i < |lines| ==> cs[i] == LineChunk(lines, i) && LineChunk(lines, i).text != []
  {
    WindowChunksLength(lines, 0);
    forall i | 0 <= i < |lines|
      ensures WindowChunks(lines, 0)[i] == LineChunk(lines, i) && LineChunk(lines, i).text != []
    {
      WindowChunksAt(lines, 0, i);
      assert Meaningful(lines[i]);
      WindowNotBlank(lines, i);
    }
  }

  /** processTranscriptForRAG makes exactly one chunk per kept line, chunk i
      having turn number i and the trimmed window of line i as its text. */
  lemma OneChunkPerLine(content: string)
    ensures var lines := TranscriptLines(content);
            var cs := WindowChunks(lines, 0);
            |cs| == |lines| &&
            forall i :: 0 <= i < |lines| ==>
              cs[i].turn == i && cs[i].text == Trim(Window(lines, i)) && cs[i].text != []
              && cs[i].keywords == ExtractKeywords(cs[i].text)
  {
    RetainedMeaningful(Split(content, '\n'));
    ChunksOfMeaningful(TranscriptLines(content));
  }

  /** The embedded windows are the chunks, in order; they exist exactly when
      every window embeds. */
  lemma {:induction false} EmbedWindowsSpec(cs: seq<TranscriptChunk>, embed: Embedder)
    ensures EmbedWindows(cs, embed).Some? <==> forall i :: 0 <= i < |cs| ==> embed(cs[i].text).Some?
    ensures EmbedWindows(cs, embed).Some? ==>
              var docs := EmbedWindows(cs, embed).value;
              |docs| == |cs| && forall i :: 0 <= i < |cs| ==> docs[i] == ToDocument(cs[i], embed(cs[i].text).value)
  {
    if cs != [] {
      EmbedWindowsSpec(cs[1..], embed);
      if EmbedWindows(cs, embed).Some? {
        var docs := EmbedWindows(cs, embed).value;
        forall i | 1 <= i < |cs| ensures docs[i] == ToDocument(cs[i], embed(cs[i].text).value) {
          assert cs[i] == cs[1..][i - 1];
        }
      } else if embed(cs[0].text).Some? {
        var i :| 0 <= i < |cs[1..]| && embed(cs[1..][i].text).None?;
        assert cs[1..][i] == cs[i + 1];
      }
    }
  }

  /** An empty transcript, or one with no meaningful line, is indexed as
      nothing without calling the embedding service. */
  lemma NothingToIndex(content: string, embed: Embedder)
    requires content == [] || TranscriptLines(content) == []
    ensures TranscriptIndex(content, embed) == Some([])
  {
  }

  /** A transcript with meaningful lines indexes one document per kept line,
      in order, with turn number i and the keywords of its text; it fails
      exactly when some window's embedding fails. */
  lemma TranscriptDocuments(content: string, embed: Embedder)
    ensures var lines := TranscriptLines(content);
            var cs := WindowChunks(lines, 0);
            var r := TranscriptIndex(content, embed);
            (r.None? <==> content != [] && exists i :: 0 <= i < |cs| && embed(cs[i].text).None?)
            && (r.Some? && content != [] ==>
                  |r.value| == |lines| &&
                  forall i :: 0 <= i < |lines| ==>
                    r.value[i].text == Trim(Window(lines, i))
                    && Some(r.value[i].embedding) == embed(r.value[i].text)
                    && r.value[i].meta == TranscriptMeta(TranscriptSource, i, ExtractKeywords(r.value[i].text)))
  {
    var cs := WindowChunks(TranscriptLines(content), 0);
    OneChunkPerLine(content);
    EmbedWindowsSpec(cs, embed);
  }
}

/** The two RAG endpoints of the backend: /api/preload-case-data fills the
    case cache, and /api/chat answers a patient or physician conversation
    with retrieved context, re-indexing the patient transcript when it
    changed and, for the physician, analysing the student's questions. */
module Server {
  import opened Wrappers
  import opened JsString
  import opened Json
  import opened Similarity
  import opened Documents
  import opened Chunker
  import opened CaseIndex
  import opened Transcript
  import opened Coverage
  import opened Retrieval

  const TranscriptMarker: string := "Here is the transcript of your interaction with the patient:"
  /** The transcript body starts after the marker and a blank line. */
  const TranscriptBodyOffset: nat := |TranscriptMarker| + 2
  const ContextIntro: string :=
    "Here is additional relevant background information and details from the patient interaction or teaching materials:\n"
  const SummaryIntro: string :=
    "Here is a summary of the student's history-taking performance during the patient interaction:\n"
  const MissedQueryPrefix: string := "Information missed by student: "
  const SystemRole: string := "system"

  /** A chat message; content is None when it is absent or not a string. */
  datatype Message = Message(role: string, content: Option<string>)

  /** The request body of /api/chat; messages is None when absent, and an
      absent caseId is the empty string. */
  datatype ChatRequest = ChatRequest(messages: Option<seq<Message>>, chatType: string, caseId: string)

  /** 400, 500, or 200 with the completion's message. */
  datatype Response = BadRequest | ServerError | Ok(reply: Message)

  datatype PreloadStatus = MissingCaseId | AlreadyLoaded | Loaded

  /** The outside world: the embedding service, Math.sqrt, the MD5 hex
      digest, the chat completion service (None when it fails) and reading
      and parsing a case file (None when that fails). */
  datatype Services = Services(
    embed: Embedder,
    sqrt: real -> real,
    md5: string -> string,
    complete: seq<Message> -> Option<Message>,
    load: (string, Variant) -> Option<Json>)

  datatype CaseEntry = CaseEntry(patientDocs: seq<Document>, physicianDocs: seq<Document>, keyPoints: seq<KeyPoint>)
  datatype TranscriptEntry = TranscriptEntry(data: seq<Document>, hash: string)

  // ---------------------------------------------------------------------
  // The case cache

  function LoadCase(caseId: string, svc: Services): CaseEntry
  {
    var patient := ProcessCaseJson(Patient, svc.load(caseId, Patient), svc.embed);
    var physician := ProcessCaseJson(Physician, svc.load(caseId, Physician), svc.embed);
    CaseEntry(patient.documents, physician.documents, physician.keyPoints)
  }

  /** The cache after making sure the case is loaded: a cached case is kept
      as it is, a missing one is built from both files. */
  function WithCase(cases: map<string, CaseEntry>, caseId: string, svc: Services): map<string, CaseEntry>
  {
    if caseId in cases then cases else cases[caseId := LoadCase(caseId, svc)]
  }

  function PreloadSpec(caseId: string, cases: map<string, CaseEntry>, svc: Services): (PreloadStatus, map<string, CaseEntry>)
  {
    if caseId == [] then (MissingCaseId, cases)
    else if caseId in cases then (AlreadyLoaded, cases)
    else (Loaded, WithCase(cases, caseId, svc))
  }

  /** Loading a case adds exactly that case, and never rebuilds one already
      cached. */
  lemma WithCaseSpec(cases: map<string, CaseEntry>, caseId: string, svc: Services)
    ensures var after := WithCase(cases, caseId, svc);
            caseId in after
            && (caseId in cases ==> after[caseId] == cases[caseId])
            && (caseId !in cases ==> after[caseId] == LoadCase(caseId, svc))
            && after.Keys == cases.Keys + {caseId}
            && forall id :: id in cases ==> after[id] == cases[id]
  {
  }

  /** Preloading twice does no more than preloading once. */
  lemma PreloadIdempotent(caseId: string, cases: map<string, CaseEntry>, svc: Services)
    ensures var first := PreloadSpec(caseId, cases, svc).1;
            PreloadSpec(caseId, first, svc).1 == first
            && (caseId != [] ==> PreloadSpec(caseId, first, svc).0 == AlreadyLoaded)
  {
  }

  // ---------------------------------------------------------------------
  // The messages of a chat request

  predicate IsTranscriptMessage(m: Message)
  {
    m.role == SystemRole && m.content.Some? && StartsWith(m.content.value, TranscriptMarker)
  }

  /** `messages.find(...)`: the first transcript message. */
  function FindTranscript(msgs: seq<Message>): (r: Option<Message>)
    ensures r.Some? ==> r.value in msgs && IsTranscriptMessage(r.value)
    ensures r.None? <==> forall i :: 0 <= i < |msgs| ==> !IsTranscriptMessage(msgs[i])
    ensures forall i :: 0 <= i < |msgs| && IsTranscriptMessage(msgs[i]) && (forall j :: 0 <= j < i ==> !IsTranscriptMessage(msgs[j]))
              ==> r == Some(msgs[i])
  {
    if msgs == [] then None
    else if IsTranscriptMessage(msgs[0]) then Some(msgs[0])
    else FindTranscript(msgs[1..])
  }

  /** The transcript text after the marker line, or "" without a transcript. */
  function TranscriptBody(msgs: seq<Message>): string
  {
    var t := FindTranscript(msgs);
    if t.Some? then Substring(t.value.content.value, TranscriptBodyOffset) else []
  }

  /** `messages[0]?.content`. */
  function SystemPrompt(msgs: seq<Message>): Option<string>
  {
    if msgs == [] then None else msgs[0].content
  }

  /** The messages after the first that are not transcript messages. */
  function HistoryFrom(msgs: seq<Message>, from: nat): seq<Message>
    decreases |msgs| - from
  {
    if from >= |msgs| then []
    else (if IsTranscriptMessage(msgs[from]) then [] else [msgs[from]]) + HistoryFrom(msgs, from + 1)
  }

  function ConversationHistory(msgs: seq<Message>): seq<Message>
  {
    HistoryFrom(msgs, 1)
  }

  /** The history keeps every message after the first except transcript
      messages, and nothing else. */
  lemma {:induction false} HistorySpec(msgs: seq<Message>, from: nat)
    ensures forall m :: m in HistoryFrom(msgs, from) <==>
              exists i :: from <= i < |msgs| && msgs[i] == m && !IsTranscriptMessage(m)
    decreases |msgs| - from
  {
    if from < |msgs| {
      HistorySpec(msgs, from + 1);
    }
  }

  /** The history is a filter: it keeps the original order and repetitions.
      Read over growing prefixes, it starts empty and each message from
      `from` on is appended exactly when it is not a transcript message. */
  lemma HistoryInOrder(msgs: seq<Message>, from: nat)
    requires from <= |msgs|
    ensures HistoryFrom(msgs[..from], from) == []
    ensures HistoryFrom(msgs[..|msgs|], from) == HistoryFrom(msgs, from)
    ensures forall j :: from <= j < |msgs| ==>
              HistoryFrom(msgs[..j + 1], from)
              == HistoryFrom(msgs[..j], from) + (if IsTranscriptMessage(msgs[j]) then [] else [msgs[j]])
  {
    assert msgs[..|msgs|] == msgs;
    forall j | from <= j < |msgs|
      ensures HistoryFrom(msgs[..j + 1], from)
              == HistoryFrom(msgs[..j], from) + (if IsTranscriptMessage(msgs[j]) then [] else [msgs[j]])
    {
      HistorySnoc(msgs, from, j);
    }
  }

  lemma {:induction false} HistorySnoc(msgs: seq<Message>, from: nat, j: nat)
    requires from <= j < |msgs|
    ensures HistoryFrom(msgs[..j + 1], from)
            == HistoryFrom(msgs[..j], from) + (if IsTranscriptMessage(msgs[j]) then [] else [msgs[j]])
    decreases j - from
  {
    var longer, shorter := msgs[..j + 1], msgs[..j];
    var last := if IsTranscriptMessage(msgs[j]) then [] else [msgs[j]];
    assert longer[from] == msgs[from];
    if from == j {
      assert HistoryFrom(longer, from) == last + HistoryFrom(longer, from + 1);
    } else {
      assert shorter[from] == msgs[from];
      HistorySnoc(msgs, from + 1, j);
      var head := if IsTranscriptMessage(msgs[from]) then [] else [msgs[from]];
      calc {
        HistoryFrom(longer, from);
        head + HistoryFrom(longer, from + 1);
        head + (HistoryFrom(shorter, from + 1) + last);
        (head + HistoryFrom(shorter, from + 1)) + last;
        HistoryFrom(shorter, from) + last;
      }
    }
  }

  /** `history[history.length - 1]?.content`. */
  function UserMessage(history: seq<Message>): Option<string>
  {
    if history == [] then None else history[|history| - 1].content
  }

  function MissedQueries(missed: seq<string>): (r: seq<string>)
    ensures |r| == |missed| && forall i :: 0 <= i < |missed| ==> r[i] == MissedQueryPrefix + missed[i]
  {
    if missed == [] then [] else [MissedQueryPrefix + missed[0]] + MissedQueries(missed[1..])
  }

  /** The latest user message, when there is one, then a query per missed point. */
  function Queries(userMessage: Option<string>, missed: seq<string>): seq<string>
  {
    (if userMessage.Some? && userMessage.value != [] then [userMessage.value] else []) + MissedQueries(missed)
  }

  /** The messages sent to the completion service. */
  function Augment(systemPrompt: Option<string>, context: string, isPhysician: bool,
                   transcript: Option<Message>, summary: Option<string>, history: seq<Message>): seq<Message>
  {
    [Message(SystemRole, systemPrompt)]
    + (if context != [] then [Message(SystemRole, Some(ContextIntro + context))] else [])
    + (if isPhysician && transcript.Some? then [transcript.value] else [])
    + (if isPhysician && summary.Some? then [Message(SystemRole, Some(SummaryIntro + summary.value))] else [])
    + history
  }

  /** The augmented conversation opens with the system prompt, ends with the
      whole history, and between them carries the context, then (physician
      only) the transcript and the performance summary; a patient chat never
      sees the transcript or the summary. */
  lemma AugmentShape(systemPrompt: Option<string>, context: string, isPhysician: bool,
                     transcript: Option<Message>, summary: Option<string>, history: seq<Message>)
    ensures var r := Augment(systemPrompt, context, isPhysician, transcript, summary, history);
            var extra := |r| - |history| - 1;
            |r| >= |history| + 1
            && r[0] == Message(SystemRole, systemPrompt)
            && r[|r| - |history|..] == history
            && extra == (if context != [] then 1 else 0)
                        + (if isPhysician && transcript.Some? then 1 else 0)
                        + (if isPhysician && summary.Some? then 1 else 0)
            && (context != [] ==> r[1] == Message(SystemRole, Some(ContextIntro + context)))
            && (!isPhysician ==> r[..|r| - |history|] == [Message(SystemRole, systemPrompt)]
                                   + (if context != [] then [Message(SystemRole, Some(ContextIntro + context))] else []))
            && (isPhysician && summary.Some? ==> r[|r| - |history| - 1] == Message(SystemRole, Some(SummaryIntro + summary.value)))
  {
  }

  /** The queries are the user's message, if any, followed by one query per
      missed point in order. */
  lemma QueriesSpec(userMessage: Option<string>, missed: seq<string>)
    ensures var qs := Queries(userMessage, missed);
            var off := if userMessage.Some? && userMessage.value != [] then 1 else 0;
            |qs| == off + |missed|
            && (off == 1 ==> qs[0] == userMessage.value)
            && forall i :: 0 <= i < |missed| ==> qs[off + i] == MissedQueryPrefix + missed[i]
  {
  }

  // ---------------------------------------------------------------------
  // The transcript cache

  /** Re-index when there is a transcript and it is new or its hash changed. */
  predicate NeedsReindex(transcripts: map<string, TranscriptEntry>, caseId: string, body: string, md5: string -> string)
  {
    body != [] && (caseId !in transcripts || transcripts[caseId].hash != md5(body))
  }

  /** The transcript cache after a physician request; None when indexing the
      new transcript fails. */
  function TranscriptStep(transcripts: map<string, TranscriptEntry>, caseId: string, msgs: seq<Message>, svc: Services)
    : Option<map<string, TranscriptEntry>>
  {
    var body := TranscriptBody(msgs);
    if NeedsReindex(transcripts, caseId, body, svc.md5) then
      var data := TranscriptIndex(body, svc.embed);
      if data.None? then None else Some(transcripts[caseId := TranscriptEntry(data.value, svc.md5(body))])
    else Some(transcripts)
  }

  /** The transcript documents a physician chat retrieves from: whatever the
      cache holds for the case, possibly from an earlier transcript. */
  function TranscriptDocs(transcripts: map<string, TranscriptEntry>, caseId: string): seq<Document>
  {
    if caseId in transcripts then transcripts[caseId].data else []
  }

  /** The transcript is indexed again exactly when it is present and new or
      changed; then the entry holds its documents and its hash, and no other
      case's entry moves. Otherwise the cache is left alone. */
  lemma TranscriptStepSpec(transcripts: map<string, TranscriptEntry>, caseId: string, msgs: seq<Message>, svc: Services)
    ensures var body := TranscriptBody(msgs);
            var r := TranscriptStep(transcripts, caseId, msgs, svc);
            (r.None? <==> NeedsReindex(transcripts, caseId, body, svc.md5) && TranscriptIndex(body, svc.embed).None?)
            && (!NeedsReindex(transcripts, caseId, body, svc.md5) ==> r == Some(transcripts))
            && (r.Some? && NeedsReindex(transcripts, caseId, body, svc.md5) ==>
                  r.value[caseId] == TranscriptEntry(TranscriptIndex(body, svc.embed).value, svc.md5(body))
                  && forall id :: id in transcripts && id != caseId ==> id in r.value && r.value[id] == transcripts[id])
  {
  }

  /** Sending the same transcript again does not index it again. */
  lemma SameTranscriptNotReindexed(transcripts: map<string, TranscriptEntry>, caseId: string, msgs: seq<Message>, svc: Services)
    requires TranscriptStep(transcripts, caseId, msgs, svc).Some?
    ensures var after := TranscriptStep(transcripts, caseId, msgs, svc).value;
            TranscriptStep(after, caseId, msgs, svc) == Some(after)
  {
  }

  /** Without a transcript message nothing is indexed. */
  lemma NoTranscriptNoReindex(transcripts: map<string, TranscriptEntry>, caseId: string, msgs: seq<Message>, svc: Services)
    requires forall i :: 0 <= i < |msgs| ==> !IsTranscriptMessage(msgs[i])
    ensures TranscriptStep(transcripts, caseId, msgs, svc) == Some(transcripts)
  {
  }

  // ---------------------------------------------------------------------
  // Answering

  datatype AnalysisOutcome = NotRun | Ran(analysis: Analysis) | AnalysisFailed

  /** The performance analysis runs for a physician chat with a transcript
      message and at least one key point. */
  function AnalysisOf(msgs: seq<Message>, isPhysician: bool, kps: seq<KeyPoint>, svc: Services): AnalysisOutcome
  {
    var t := FindTranscript(msgs);
    if isPhysician && t.Some? && kps != [] then
      var a := Analyze(t.value.content.value, kps, svc.embed, svc.sqrt);
      if a.None? then AnalysisFailed else Ran(a.value)
    else NotRun
  }

  /** Everything after the cache work, for a patient or physician chat. */
  function AnswerSpec(msgs: seq<Message>, isPhysician: bool, docs: seq<Document>, kps: seq<KeyPoint>,
                      transcriptDocs: seq<Document>, svc: Services): Response
  {
    var outcome := AnalysisOf(msgs, isPhysician, kps, svc);
    if outcome.AnalysisFailed? then ServerError
    else
      var history := ConversationHistory(msgs);
      var missed := if outcome.Ran? then outcome.analysis.missed else [];
      var queries := Queries(UserMessage(history), missed);
      var pool := if isPhysician then docs + transcriptDocs else docs;
      var context := RetrievedContext(queries, pool, svc.embed, svc.sqrt);
      if context.None? then ServerError
      else
        var summary := if outcome.Ran? then Some(outcome.analysis.summary) else None;
        var augmented := Augment(SystemPrompt(msgs), context.value, isPhysician, FindTranscript(msgs), summary, history);
        var reply := svc.complete(augmented);
        if reply.None? then ServerError else Ok(reply.value)
  }

  method Answer(msgs: seq<Message>, isPhysician: bool, docs: seq<Document>, kps: seq<KeyPoint>,
                transcriptDocs: seq<Document>, svc: Services) returns (resp: Response)
    ensures resp == AnswerSpec(msgs, isPhysician, docs, kps, transcriptDocs, svc)
  {
    var transcript := FindTranscript(msgs);
    var history := ConversationHistory(msgs);
    var userMessage := UserMessage(history);
    var analysis: Option<Analysis> := None;
    if isPhysician && transcript.Some? && kps != [] {
      analysis := AnalyzePatientTranscript(transcript.value.content.value, kps, svc.embed, svc.sqrt);
      if analysis.None? {
        return ServerError;
      }
    }
    var missed := if analysis.Some? then analysis.value.missed else [];
    var queries := Queries(userMessage, missed);
    var pool := if isPhysician then docs + transcriptDocs else docs;
    var context := Retrieve(queries, pool, svc.embed, svc.sqrt);
    if context.None? {
      return ServerError;
    }
    var summary := if analysis.Some? then Some(analysis.value.summary) else None;
    var reply := svc.complete(Augment(SystemPrompt(msgs), context.value, isPhysician, transcript, summary, history));
    resp := if reply.None? then ServerError else Ok(reply.value);
  }

  /** The response and both caches after one /api/chat request. */
  datatype Outcome = Outcome(response: Response, cases: map<string, CaseEntry>, transcripts: map<string, TranscriptEntry>)

  function ChatSpec(req: ChatRequest, cases: map<string, CaseEntry>, transcripts: map<string, TranscriptEntry>, svc: Services): Outcome
  {
    if req.messages.None? || req.caseId == [] then Outcome(BadRequest, cases, transcripts)
    else Outcome(ChatResponse(req, cases, transcripts, svc), WithCase(cases, req.caseId, svc), ChatTranscripts(req, transcripts, svc))
  }

  /** The transcript cache after a complete request: only a physician chat
      whose transcript step succeeds changes it. */
  function ChatTranscripts(req: ChatRequest, transcripts: map<string, TranscriptEntry>, svc: Services): map<string, TranscriptEntry>
    requires req.messages.Some?
  {
    if req.chatType != "physician" then transcripts
    else
      var step := TranscriptStep(transcripts, req.caseId, req.messages.value, svc);
      if step.None? then transcripts else step.value
  }

  /** The response to a complete request, answered from its (now cached) case. */
  function ChatResponse(req: ChatRequest, cases: map<string, CaseEntry>, transcripts: map<string, TranscriptEntry>, svc: Services): Response
    requires req.messages.Some?
  {
    var msgs := req.messages.value;
    var entry := if req.caseId in cases then cases[req.caseId] else LoadCase(req.caseId, svc);
    if req.chatType == "patient" then
      AnswerSpec(msgs, false, entry.patientDocs, [], [], svc)
    else if req.chatType == "physician" then
      var step := TranscriptStep(transcripts, req.caseId, msgs, svc);
      if step.None? then ServerError
      else AnswerSpec(msgs, true, entry.physicianDocs, entry.keyPoints, TranscriptDocs(step.value, req.caseId), svc)
    else
      var reply := svc.complete(msgs);
      if reply.None? then ServerError else Ok(reply.value)
  }

  // ---------------------------------------------------------------------
  // The server state

  class Backend {
    var caseCache: map<string, CaseEntry>
    var transcriptCache: map<string, TranscriptEntry>

    constructor()
      ensures caseCache == map[] && transcriptCache == map[]
    {
      caseCache := map[];
      transcriptCache := map[];
    }

    method EnsureCase(caseId: string, svc: Services)
      modifies this
      ensures caseCache == WithCase(old(caseCache), caseId, svc)
      ensures transcriptCache == old(transcriptCache)
    {
      if caseId !in caseCache {
        var patientData := ProcessCaseJson(Patient, svc.load(caseId, Patient), svc.embed);
        var physicianData := ProcessCaseJson(Physician, svc.load(caseId, Physician), svc.embed);
        caseCache := caseCache[caseId := CaseEntry(patientData.documents, physicianData.documents, physicianData.keyPoints)];
      }
    }

    /** POST /api/preload-case-data. */
    method Preload(caseId: string, svc: Services) returns (status: PreloadStatus)
      modifies this
      ensures (status, caseCache) == PreloadSpec(caseId, old(caseCache), svc)
      ensures transcriptCache == old(transcriptCache)
    {
      if caseId == [] {
        return MissingCaseId;
      }
      if caseId in caseCache {
        return AlreadyLoaded;
      }
      EnsureCase(caseId, svc);
      status := Loaded;
    }

    /** POST /api/chat. */
    method Chat(req: ChatRequest, svc: Services) returns (resp: Response)
      modifies this
      ensures Outcome(resp, caseCache, transcriptCache) == ChatSpec(req, old(caseCache), old(transcriptCache), svc)
    {
      if req.messages.None? || req.caseId == [] {
        return BadRequest;
      }
      var msgs := req.messages.value;
      EnsureCase(req.caseId, svc);
      var entry := caseCache[req.caseId];
      if req.chatType == "patient" {
        resp := Answer(msgs, false, entry.patientDocs, [], [], svc);
      } else if req.chatType == "physician" {
        var body := TranscriptBody(msgs);
        if NeedsReindex(transcriptCache, req.caseId, body, svc.md5) {
          var data := ProcessTranscriptForRag(body, svc.embed);
          if data.None? {
            return ServerError;
          }
          transcriptCache := transcriptCache[req.caseId := TranscriptEntry(data.value, svc.md5(body))];
        }
        var transcriptDocs := TranscriptDocs(transcriptCache, req.caseId);
        resp := Answer(msgs, true, entry.physicianDocs, entry.keyPoints, transcriptDocs, svc);
      } else {
        var reply := svc.complete(msgs);
        resp := if reply.None? then ServerError else Ok(reply.value);
      }
    }
  }

  // ---------------------------------------------------------------------
  // What a chat request promises

  /** A request without messages or caseId is refused and changes nothing. */
  lemma ChatRefusesIncomplete(req: ChatRequest, cases: map<string, CaseEntry>, transcripts: map<string, TranscriptEntry>, svc: Services)
    requires req.messages.None? || req.caseId == []
    ensures ChatSpec(req, cases, transcripts, svc) == Outcome(BadRequest, cases, transcripts)
  {
  }

  /** Any other request leaves its case cached, rebuilding it only when it
      was missing, whatever the chat type. */
  lemma ChatCaseCache(req: ChatRequest, cases: map<string, CaseEntry>, transcripts: map<string, TranscriptEntry>, svc: Services)
    requires req.messages.Some? && req.caseId != []
    ensures var o := ChatSpec(req, cases, transcripts, svc);
            o.cases == WithCase(cases, req.caseId, svc) && req.caseId in o.cases
            && (req.caseId in cases ==> o.cases == cases)
  {
  }

  /** Only a physician chat touches the transcript cache. */
  lemma OnlyPhysicianIndexesTranscripts(req: ChatRequest, cases: map<string, CaseEntry>, transcripts: map<string, TranscriptEntry>, svc: Services)
    requires req.chatType != "physician"
    ensures ChatSpec(req, cases, transcripts, svc).transcripts == transcripts
  {
  }

  /** A complete patient chat answers from the cached case's patient
      documents, with no key points and no transcript documents. */
  lemma PatientChatUsesPatientDocs(req: ChatRequest, cases: map<string, CaseEntry>, transcripts: map<string, TranscriptEntry>, svc: Services)
    requires req.messages.Some? && req.caseId != [] && req.chatType == "patient"
    ensures ChatSpec(req, cases, transcripts, svc).response
            == AnswerSpec(req.messages.value, false, WithCase(cases, req.caseId, svc)[req.caseId].patientDocs, [], [], svc)
  {
  }

  /** Outside a physician chat the key points and transcript documents play
      no part: the analysis never runs, retrieval sees the given documents
      alone, and a failed retrieval answers 500. */
  lemma PatientAnswerIgnoresPhysicianData(msgs: seq<Message>, docs: seq<Document>, kps: seq<KeyPoint>, transcriptDocs: seq<Document>, svc: Services)
    ensures AnalysisOf(msgs, false, kps, svc) == NotRun
    ensures AnswerSpec(msgs, false, docs, kps, transcriptDocs, svc) == AnswerSpec(msgs, false, docs, [], [], svc)
    ensures var history := ConversationHistory(msgs);
            var queries := Queries(UserMessage(history), []);
            var context := RetrievedContext(queries, docs, svc.embed, svc.sqrt);
            context.None? ==> AnswerSpec(msgs, false, docs, kps, transcriptDocs, svc) == ServerError
  {
  }

  /** A physician chat whose new transcript fails to index answers 500 and
      keeps the previous transcript entry. */
  lemma FailedIndexKeepsCache(req: ChatRequest, cases: map<string, CaseEntry>, transcripts: map<string, TranscriptEntry>, svc: Services)
    requires req.messages.Some? && req.caseId != [] && req.chatType == "physician"
    requires TranscriptStep(transcripts, req.caseId, req.messages.value, svc).None?
    ensures ChatSpec(req, cases, transcripts, svc).response == ServerError
    ensures ChatSpec(req, cases, transcripts, svc).transcripts == transcripts
  {
  }

  /** The conversation history never carries a transcript message; the
      transcript reaches the model only as the dedicated physician message. */
  lemma HistoryHasNoTranscript(msgs: seq<Message>)
    ensures forall m :: m in ConversationHistory(msgs) ==> !IsTranscriptMessage(m)
    ensures forall i :: 1 <= i < |msgs| && !IsTranscriptMessage(msgs[i]) ==> msgs[i] in ConversationHistory(msgs)
  {
    HistorySpec(msgs, 1);
  }
}

/** processCaseJson: choose the fields of one case file, chunk each of them,
    embed every chunk and, for the physician file, embed every key history
    point. Any failure on the way gives an empty result. */
module CaseIndex {
  import opened Wrappers
  import opened Similarity
  import opened Json
  import opened Chunker
  import opened Documents

  datatype CaseIndex = CaseIndex(documents: seq<Document>, keyPoints: seq<KeyPoint>)

  const PatientFields: seq<string> :=
    ["summary", "meta", "system_prompt", "patient_profile", "symptoms", "patient_responses"]
  /** Physician fields chunked before keyHistoryPoints. */
  const PhysicianFieldsBefore: seq<string> := ["summary", "system_prompt"]
  /** Physician fields chunked after keyHistoryPoints. */
  const PhysicianFieldsAfter: seq<string> :=
    ["teachingFlow", "relevantInvestigations", "differentialDiagnosis", "commonMedications"]
  const KeyPointsField: string := "keyHistoryPoints"

  /** The properties `data.name` can find: an object's fields; any other
      non-null value has none of the names looked up. */
  function FieldsOf(data: Json): seq<Field>
  {
    if data.JObj? then data.fields else []
  }

  /** `if (data.name) createChunks(data.name, [name], 0)` for each name in turn. */
  function Selected(kind: Variant, fields: seq<Field>, names: seq<string>): seq<Chunk>
  {
    if names == [] then []
    else
      var v := Lookup(fields, names[0]);
      (if v.Some? && Truthy(v.value) then Chunks(kind, v.value, [names[0]], 0) else [])
        + Selected(kind, fields, names[1..])
  }

  /** What `data.keyHistoryPoints` holds, as far as the code cares. */
  datatype KeyPointsEntry = NoKeyPoints | KeyPointItems(items: seq<Json>) | NotAnArray

  function KeyPointsOf(fields: seq<Field>): KeyPointsEntry
  {
    var v := Lookup(fields, KeyPointsField);
    if v.None? || !Truthy(v.value) then NoKeyPoints
    else if v.value.JArr? then KeyPointItems(v.value.items)
    else NotAnArray
  }

  /** The point text of one keyHistoryPoints entry, `pointObj.point`. Only a
      string point is embedded here; any other entry counts as an embedding
      request that fails. */
  function PointText(item: Json): Option<string>
  {
    if item.JObj? then
      match Lookup(item.fields, "point")
      case Some(JStr(s)) => Some(s)
      case _ => None
    else None
  }

  function KeyPointOf(item: Json, embed: Embedder): Option<KeyPoint>
  {
    var p := PointText(item);
    if p.None? then None
    else
      var e := embed(p.value);
      if e.None? then None else Some(KeyPoint(p.value, e.value))
  }

  /** Promise.all over the key points: every one must succeed. */
  function KeyPoints(items: seq<Json>, embed: Embedder): Option<seq<KeyPoint>>
  {
    if items == [] then Some([])
    else
      var first := KeyPointOf(items[0], embed);
      var rest := KeyPoints(items[1..], embed);
      if first.None? || rest.None? then None else Some([first.value] + rest.value)
  }

  /** The documents array before embedding, in push order; None when
      keyHistoryPoints is truthy but has no `map`. */
  function CaseChunks(kind: Variant, fields: seq<Field>): Option<seq<Chunk>>
  {
    if kind == Patient then Some(Selected(kind, fields, PatientFields))
    else
      match KeyPointsOf(fields)
      case NotAnArray => None
      case NoKeyPoints =>
        Some(Selected(kind, fields, PhysicianFieldsBefore) + Selected(kind, fields, PhysicianFieldsAfter))
      case KeyPointItems(items) =>
        Some(Selected(kind, fields, PhysicianFieldsBefore)
             + Chunks(kind, JArr(items), [KeyPointsField], 0)
             + Selected(kind, fields, PhysicianFieldsAfter))
  }

  function CaseKeyPoints(kind: Variant, fields: seq<Field>, embed: Embedder): Option<seq<KeyPoint>>
  {
    if kind == Patient then Some([])
    else
      match KeyPointsOf(fields)
      case NotAnArray => None
      case NoKeyPoints => Some([])
      case KeyPointItems(items) => KeyPoints(items, embed)
  }

  function ToDocument(c: Chunk, embedding: Vector): Document
  {
    Document(c.text, embedding, CaseMeta(c.source, PathString(c.path), c.level, c.keywords))
  }

  /** Promise.all over the documents: every embedding must succeed. */
  function EmbedChunks(cs: seq<Chunk>, embed: Embedder): Option<seq<Document>>
  {
    if cs == [] then Some([])
    else
      var e := embed(cs[0].text);
      var rest := EmbedChunks(cs[1..], embed);
      if e.None? || rest.None? then None else Some([ToDocument(cs[0], e.value)] + rest.value)
  }

  /** The try block; None when it throws. `data` is None when the file cannot
      be read or parsed. */
  function Index(kind: Variant, data: Option<Json>, embed: Embedder): Option<CaseIndex>
  {
    if data.None? || data.value.JNull? then None
    else
      var fields := FieldsOf(data.value);
      var cs := CaseChunks(kind, fields);
      var kps := CaseKeyPoints(kind, fields, embed);
      if cs.None? || kps.None? then None
      else
        var docs := EmbedChunks(cs.value, embed);
        if docs.None? then None else Some(CaseIndex(docs.value, kps.value))
  }

  /** processCaseJson(caseId, type), with the file's parsed content given.
      The catch turns every failure into an empty index; a run that gets
      through has one document per chunk, in push order, carrying the
      embedding of its text, and one key point per keyHistoryPoints entry. */
  function ProcessCaseJson(kind: Variant, data: Option<Json>, embed: Embedder): (r: CaseIndex)
    ensures data.None? || data.value.JNull? ==> r == CaseIndex([], [])
    ensures Index(kind, data, embed).None? ==> r == CaseIndex([], [])
    ensures Index(kind, data, embed).Some? ==>
              var fields := FieldsOf(data.value);
              var cs := CaseChunks(kind, fields).value;
              |r.documents| == |cs|
              && (forall i :: 0 <= i < |cs| ==>
                    embed(cs[i].text) == Some(r.documents[i].embedding) && r.documents[i] == ToDocument(cs[i], r.documents[i].embedding))
              && (kind == Patient || KeyPointsOf(fields) == NoKeyPoints ==> r.keyPoints == [])
              && (kind == Physician && KeyPointsOf(fields).KeyPointItems? ==>
                    var items := KeyPointsOf(fields).items;
                    |r.keyPoints| == |items|
                    && forall i :: 0 <= i < |items| ==>
                         PointText(items[i]) == Some(r.keyPoints[i].point) && embed(r.keyPoints[i].point) == Some(r.keyPoints[i].embedding))
  {
    match Index(kind, data, embed)
    case None => CaseIndex([], [])
    case Some(ci) => Indexed(kind, data, embed); ci
  }

  // ---------------------------------------------------------------------
  // Embedding is all or nothing, and keeps order

  /** The embedded documents are the chunks, in order, each with the
      embedding of its own text; they exist exactly when every chunk embeds. */
  lemma {:induction false} EmbedChunksSpec(cs: seq<Chunk>, embed: Embedder)
    ensures EmbedChunks(cs, embed).Some? <==> forall i :: 0 <= i < |cs| ==> embed(cs[i].text).Some?
    ensures EmbedChunks(cs, embed).Some? ==>
              var docs := EmbedChunks(cs, embed).value;
              |docs| == |cs| && forall i :: 0 <= i < |cs| ==> docs[i] == ToDocument(cs[i], embed(cs[i].text).value)
  {
    if cs != [] {
      EmbedChunksSpec(cs[1..], embed);
      if EmbedChunks(cs, embed).Some? {
        var docs := EmbedChunks(cs, embed).value;
        forall i | 1 <= i < |cs| ensures docs[i] == ToDocument(cs[i], embed(cs[i].text).value) {
          assert cs[i] == cs[1..][i - 1];
        }
      } else if embed(cs[0].text).Some? {
        var i :| 0 <= i < |cs[1..]| && embed(cs[1..][i].text).None?;
        assert cs[1..][i] == cs[i + 1];
      }
    }
  }

  /** One key point per keyHistoryPoints entry, in order, each carrying the
      entry's point text and its embedding; they exist exactly when every
      entry has a string point that embeds. */
  lemma {:induction false} KeyPointsSpec(items: seq<Json>, embed: Embedder)
    ensures KeyPoints(items, embed).Some? <==> forall i :: 0 <= i < |items| ==> KeyPointOf(items[i], embed).Some?
    ensures KeyPoints(items, embed).Some? ==>
              var kps := KeyPoints(items, embed).value;
              |kps| == |items| &&
              forall i :: 0 <= i < |items| ==>
                PointText(items[i]) == Some(kps[i].point) && embed(kps[i].point) == Some(kps[i].embedding)
  {
    if items != [] {
      KeyPointsSpec(items[1..], embed);
      if KeyPoints(items, embed).Some? {
        var kps := KeyPoints(items, embed).value;
        forall i | 1 <= i < |items|
          ensures PointText(items[i]) == Some(kps[i].point) && embed(kps[i].point) == Some(kps[i].embedding)
        {
          assert items[i] == items[1..][i - 1];
        }
      } else if KeyPointOf(items[0], embed).Some? {
        var i :| 0 <= i < |items[1..]| && KeyPointOf(items[1..][i], embed).None?;
        assert items[1..][i] == items[i + 1];
      }
    }
  }

  // ---------------------------------------------------------------------
  // What processCaseJson promises

  /** A successful run indexes the chunks in push order: one document per
      chunk with the chunk's text and metadata and the embedding of its text;
      and it has one key point per keyHistoryPoints entry, none for the
      patient record or without that field. */
  lemma Indexed(kind: Variant, data: Option<Json>, embed: Embedder)
    requires Index(kind, data, embed).Some?
    ensures var ci := Index(kind, data, embed).value;
            var fields := FieldsOf(data.value);
            var cs := CaseChunks(kind, fields).value;
            |ci.documents| == |cs|
            && (forall i :: 0 <= i < |cs| ==>
                  ci.documents[i].text == cs[i].text && Some(ci.documents[i].embedding) == embed(cs[i].text)
                  && ci.documents[i].meta == CaseMeta(cs[i].source, PathString(cs[i].path), cs[i].level, cs[i].keywords)
                  && ci.documents[i] == ToDocument(cs[i], ci.documents[i].embedding))
            && (kind == Patient || KeyPointsOf(fields) == NoKeyPoints ==> ci.keyPoints == [])
            && (kind == Physician && KeyPointsOf(fields).KeyPointItems? ==>
                  var items := KeyPointsOf(fields).items;
                  |ci.keyPoints| == |items|
                  && forall i :: 0 <= i < |items| ==>
                       PointText(items[i]) == Some(ci.keyPoints[i].point) && embed(ci.keyPoints[i].point) == Some(ci.keyPoints[i].embedding))
  {
    var fields := FieldsOf(data.value);
    EmbedChunksSpec(CaseChunks(kind, fields).value, embed);
    if kind == Physician && KeyPointsOf(fields).KeyPointItems? {
      KeyPointsSpec(KeyPointsOf(fields).items, embed);
    }
  }

  /** For the physician file with a keyHistoryPoints array, there is exactly
      one key point per element, in order, and the array is also chunked like
      any other field, right after summary and system_prompt. */
  lemma PhysicianKeyPoints(data: Json, items: seq<Json>, embed: Embedder)
    requires !data.JNull? && KeyPointsOf(FieldsOf(data)) == KeyPointItems(items)
    requires Index(Physician, Some(data), embed).Some?
    ensures var ci := Index(Physician, Some(data), embed).value;
            var fields := FieldsOf(data);
            |ci.keyPoints| == |items|
            && (forall i :: 0 <= i < |items| ==> PointText(items[i]) == Some(ci.keyPoints[i].point))
            && CaseChunks(Physician, fields).value
               == Selected(Physician, fields, PhysicianFieldsBefore)
                  + Chunks(Physician, JArr(items), [KeyPointsField], 0)
                  + Selected(Physician, fields, PhysicianFieldsAfter)
  {
    KeyPointsSpec(items, embed);
  }

  /** Any failure empties the whole result: an unreadable or null record, a
      keyHistoryPoints value with no `map`, an entry without a string point or
      whose embedding fails, or a chunk whose embedding fails. */
  lemma FailureEmpties(kind: Variant, data: Option<Json>, embed: Embedder)
    requires
      || data.None? || data.value.JNull?
      || (kind == Physician && KeyPointsOf(FieldsOf(data.value)) == NotAnArray)
      || (kind == Physician && KeyPointsOf(FieldsOf(data.value)).KeyPointItems?
          && exists i :: 0 <= i < |KeyPointsOf(FieldsOf(data.value)).items|
               && KeyPointOf(KeyPointsOf(FieldsOf(data.value)).items[i], embed).None?)
      || (CaseChunks(kind, FieldsOf(data.value)).Some?
          && exists i :: 0 <= i < |CaseChunks(kind, FieldsOf(data.value)).value|
               && embed(CaseChunks(kind, FieldsOf(data.value)).value[i].text).None?)
    ensures ProcessCaseJson(kind, data, embed) == CaseIndex([], [])
  {
    if data.Some? && !data.value.JNull? {
      var fields := FieldsOf(data.value);
      if kind == Physician && KeyPointsOf(fields).KeyPointItems? {
        KeyPointsSpec(KeyPointsOf(fields).items, embed);
      }
      if CaseChunks(kind, fields).Some? {
        EmbedChunksSpec(CaseChunks(kind, fields).value, embed);
      }
    }
  }

  /** Every truthy selected field is chunked: its chunks are in the result. */
  lemma {:induction false} SelectedContains(kind: Variant, fields: seq<Field>, names: seq<string>, k: nat)
    requires k < |names|
    requires Lookup(fields, names[k]).Some? && Truthy(Lookup(fields, names[k]).value)
    ensures forall c :: c in Chunks(kind, Lookup(fields, names[k]).value, [names[k]], 0) ==> c in Selected(kind, fields, names)
  {
    if k > 0 {
      assert names[1..][k - 1] == names[k];
      SelectedContains(kind, fields, names[1..], k - 1);
    }
  }

  /** A falsy or missing field contributes nothing, and a record with no
      selected field gives no chunks. */
  lemma {:induction false} SelectedEmpty(kind: Variant, fields: seq<Field>, names: seq<string>)
    requires forall k :: 0 <= k < |names| ==> Lookup(fields, names[k]).None? || !Truthy(Lookup(fields, names[k]).value)
    ensures Selected(kind, fields, names) == []
  {
    if names != [] {
      SelectedEmpty(kind, fields, names[1..]);
    }
  }
}

/** createChunks: a depth-first walk over a case record that emits one labelled
    chunk per scalar, and a summary chunk before the contents of every nested
    array or object. */
module Chunker {
  import opened JsString
  import opened Json
  import opened Keywords

  /** Which of the two case files a record comes from. */
  datatype Variant = Patient | Physician

  function VariantName(kind: Variant): string
  {
    if kind == Patient then "patient" else "physician"
  }

  /** A document before embedding: its text and its metadata. */
  datatype Chunk = Chunk(text: string, source: string, path: seq<string>, level: nat, keywords: seq<string>)

  /** currentPath[0], which reads as "undefined" when the path is empty. */
  function Head(path: seq<string>): string
  {
    if path == [] then "undefined" else path[0]
  }

  /** The metadata path string, `currentPath.join('.')`. */
  function PathString(path: seq<string>): string
  {
    Join(".", path)
  }

  /** The document pushed for a text at a path and level. */
  function MakeChunk(kind: Variant, text: string, path: seq<string>, level: nat): Chunk
  {
    Chunk(text, VariantName(kind) + " " + Head(path), path, level, ExtractKeywords(text))
  }

  function MemberCount(obj: Json): nat
  {
    match obj
    case JArr(items) => |items|
    case JObj(fields) => |fields|
    case _ => 0
  }

  /** createChunks(obj, path, level). */
  function Chunks(kind: Variant, obj: Json, path: seq<string>, level: nat): seq<Chunk>
    decreases obj, 3
  {
    if !IsCompound(obj) then [MakeChunk(kind, Join(" ", path) + ": " + Template(obj), path, level)]
    else Members(kind, obj, path, level, 0)
  }

  /** The `for (const key in obj)` loop from the i-th key on: array indices
      enumerate as "0", "1", ...; object keys in their order. */
  function Members(kind: Variant, obj: Json, path: seq<string>, level: nat, i: nat): seq<Chunk>
    requires IsCompound(obj) && i <= MemberCount(obj)
    decreases obj, 2, MemberCount(obj) - i
  {
    if i == MemberCount(obj) then []
    else
      var here := match obj
        case JArr(items) => Child(kind, NatToString(i), items[i], path, level)
        case JObj(fields) => Child(kind, fields[i].key, fields[i].value, path, level);
      here + Members(kind, obj, path, level, i + 1)
  }

  /** The body of the loop for one key and its content. */
  function Child(kind: Variant, key: string, content: Json, path: seq<string>, level: nat): seq<Chunk>
    decreases content, 4
  {
    var newPath := path + [key];
    match content
    case JArr(items) =>
      [MakeChunk(kind, key + ": " + ArrayJoin(items, 0, "; "), newPath, level + 1)]
        + Elements(kind, content, newPath, level + 2, 0)
    case JObj(_) =>
      [MakeChunk(kind, key + ": " + Stringify(content), newPath, level + 1)]
        + Chunks(kind, content, newPath, level + 1)
    case _ =>
      [MakeChunk(kind, key + ": " + Template(content), newPath, level + 1)]
  }

  /** content.forEach((item, index) => createChunks(item, [...path, String(index)], level)). */
  function Elements(kind: Variant, arr: Json, path: seq<string>, level: nat, i: nat): seq<Chunk>
    requires arr.JArr? && i <= |arr.items|
    decreases arr, 1, |arr.items| - i
  {
    if i == |arr.items| then []
    else Chunks(kind, arr.items[i], path + [NatToString(i)], level) + Elements(kind, arr, path, level, i + 1)
  }

  // ---------------------------------------------------------------------
  // Shape of every chunk

  /** A chunk lies at or below `path`, and its level grows by one per path
      segment below the starting level. */
  predicate Under(c: Chunk, path: seq<string>, level: nat)
  {
    |path| <= |c.path| && c.path[..|path|] == path && c.level == level + |c.path| - |path|
  }

  /** The metadata agrees with the text and the path. */
  predicate Labelled(kind: Variant, c: Chunk)
  {
    c.keywords == ExtractKeywords(c.text) && c.source == VariantName(kind) + " " + Head(c.path)
  }

  /** Every chunk of cs is labelled and lies below path; with `strict`, strictly below. */
  predicate AllUnder(kind: Variant, cs: seq<Chunk>, path: seq<string>, level: nat, strict: bool)
  {
    forall j :: 0 <= j < |cs| ==> Labelled(kind, cs[j]) && Under(cs[j], path, level) && (strict ==> |cs[j].path| > |path|)
  }

  lemma AllUnderAppend(kind: Variant, a: seq<Chunk>, b: seq<Chunk>, path: seq<string>, level: nat, strict: bool)
    requires AllUnder(kind, a, path, level, strict) && AllUnder(kind, b, path, level, strict)
    ensures AllUnder(kind, a + b, path, level, strict)
  {
    forall j | 0 <= j < |a + b|
      ensures Labelled(kind, (a + b)[j]) && Under((a + b)[j], path, level) && (strict ==> |(a + b)[j].path| > |path|)
    {
      if j >= |a| {
        assert (a + b)[j] == b[j - |a|];
      }
    }
  }

  /** What lies below path + [key] at level + 1 lies strictly below path at level. */
  lemma AllUnderParent(kind: Variant, cs: seq<Chunk>, path: seq<string>, key: string, level: nat, strict: bool)
    requires AllUnder(kind, cs, path + [key], level + 1, strict)
    ensures AllUnder(kind, cs, path, level, true)
  {
    forall j | 0 <= j < |cs| ensures Under(cs[j], path, level) && |cs[j].path| > |path| {
      var p := cs[j].path;
      assert p[..|path| + 1] == path + [key];
      assert p[..|path|] == (path + [key])[..|path|];
    }
  }

  lemma MakeChunkUnder(kind: Variant, text: string, path: seq<string>, level: nat)
    ensures AllUnder(kind, [MakeChunk(kind, text, path, level)], path, level, false)
  {
    assert path[..|path|] == path;
  }

  /** Every chunk of createChunks(obj, path, level) is labelled from its own
      text and path, extends the starting path, and sits one level deeper per
      extra segment; below a compound value, strictly below the path. */
  lemma {:induction false} ChunksShape(kind: Variant, obj: Json, path: seq<string>, level: nat)
    ensures AllUnder(kind, Chunks(kind, obj, path, level), path, level, IsCompound(obj))
    decreases obj, 3
  {
    if !IsCompound(obj) {
      MakeChunkUnder(kind, Join(" ", path) + ": " + Template(obj), path, level);
    } else {
      MembersShape(kind, obj, path, level, 0);
    }
  }

  lemma {:induction false} MembersShape(kind: Variant, obj: Json, path: seq<string>, level: nat, i: nat)
    requires IsCompound(obj) && i <= MemberCount(obj)
    ensures AllUnder(kind, Members(kind, obj, path, level, i), path, level, true)
    decreases obj, 2, MemberCount(obj) - i
  {
    if i < MemberCount(obj) {
      match obj {
        case JArr(items) =>
          ChildShape(kind, NatToString(i), items[i], path, level);
          AllUnderParent(kind, Child(kind, NatToString(i), items[i], path, level), path, NatToString(i), level, false);
        case JObj(fields) =>
          ChildShape(kind, fields[i].key, fields[i].value, path, level);
          AllUnderParent(kind, Child(kind, fields[i].key, fields[i].value, path, level), path, fields[i].key, level, false);
      }
      MembersShape(kind, obj, path, level, i + 1);
      var here := match obj
        case JArr(items) => Child(kind, NatToString(i), items[i], path, level)
        case JObj(fields) => Child(kind, fields[i].key, fields[i].value, path, level);
      AllUnderAppend(kind, here, Members(kind, obj, path, level, i + 1), path, level, true);
    }
  }

  /** The chunks for one key lie below path + [key] at level + 1. */
  lemma {:induction false} ChildShape(kind: Variant, key: string, content: Json, path: seq<string>, level: nat)
    ensures AllUnder(kind, Child(kind, key, content, path, level), path + [key], level + 1, false)
    decreases content, 4
  {
    var newPath := path + [key];
    match content {
      case JArr(items) =>
        var text := key + ": " + ArrayJoin(items, 0, "; ");
        MakeChunkUnder(kind, text, newPath, level + 1);
        ElementsShape(kind, content, newPath, level + 2, 0);
        ElementsUnder(kind, content, newPath, level + 1, 0);
        AllUnderAppend(kind, [MakeChunk(kind, text, newPath, level + 1)], Elements(kind, content, newPath, level + 2, 0), newPath, level + 1, false);
      case JObj(_) =>
        var text := key + ": " + Stringify(content);
        MakeChunkUnder(kind, text, newPath, level + 1);
        ChunksShape(kind, content, newPath, level + 1);
        AllUnderAppend(kind, [MakeChunk(kind, text, newPath, level + 1)], Chunks(kind, content, newPath, level + 1), newPath, level + 1, false);
      case _ =>
        MakeChunkUnder(kind, key + ": " + Template(content), newPath, level + 1);
    }
  }

  /** The indices 0 .. n-1 as property keys. */
  function IndexKeys(n: nat): (ks: seq<string>)
    ensures |ks| == n
    ensures forall i :: 0 <= i < n ==> ks[i] == NatToString(i)
  {
    if n == 0 then [] else IndexKeys(n - 1) + [NatToString(n - 1)]
  }

  /** Every chunk of an array's elements lies below path + [String(index)], and
      that index segment is one of the array's indices. */
  predicate AllBelowIndex(kind: Variant, cs: seq<Chunk>, path: seq<string>, level: nat, n: nat)
  {
    forall j :: 0 <= j < |cs| ==>
      Labelled(kind, cs[j]) && |cs[j].path| > |path| && cs[j].path[..|path|] == path
      && cs[j].path[|path|] in IndexKeys(n) && cs[j].level == level + |cs[j].path| - |path| - 1
  }

  lemma AllBelowIndexAppend(kind: Variant, a: seq<Chunk>, b: seq<Chunk>, path: seq<string>, level: nat, n: nat)
    requires AllBelowIndex(kind, a, path, level, n) && AllBelowIndex(kind, b, path, level, n)
    ensures AllBelowIndex(kind, a + b, path, level, n)
  {
    forall j | |a| <= j < |a + b| ensures (a + b)[j] == b[j - |a|] { }
  }

  lemma UnderIndex(kind: Variant, cs: seq<Chunk>, path: seq<string>, level: nat, i: nat, n: nat)
    requires i < n
    requires AllUnder(kind, cs, path + [NatToString(i)], level, false)
    ensures AllBelowIndex(kind, cs, path, level, n)
  {
    var ks := IndexKeys(n);
    assert ks[i] == NatToString(i);
    forall j | 0 <= j < |cs|
      ensures |cs[j].path| > |path| && cs[j].path[..|path|] == path && cs[j].path[|path|] in ks
    {
      var p := cs[j].path;
      assert p[..|path| + 1] == path + [NatToString(i)];
      assert p[..|path|] == (path + [NatToString(i)])[..|path|];
      assert p[|path|] == (path + [NatToString(i)])[|path|];
    }
  }

  /** forEach over the elements: element i starts at path + [String(i)] and
      level, so each chunk is one level below level - 1 per segment. */
  lemma {:induction false} ElementsShape(kind: Variant, arr: Json, path: seq<string>, level: nat, i: nat)
    requires arr.JArr? && i <= |arr.items|
    ensures AllBelowIndex(kind, Elements(kind, arr, path, level, i), path, level, |arr.items|)
    decreases arr, 1, |arr.items| - i
  {
    if i < |arr.items| {
      var first := Chunks(kind, arr.items[i], path + [NatToString(i)], level);
      ChunksShape(kind, arr.items[i], path + [NatToString(i)], level);
      UnderIndex(kind, first, path, level, i, |arr.items|);
      ElementsShape(kind, arr, path, level, i + 1);
      AllBelowIndexAppend(kind, first, Elements(kind, arr, path, level, i + 1), path, level, |arr.items|);
    }
  }

  lemma ElementsUnder(kind: Variant, arr: Json, path: seq<string>, level: nat, i: nat)
    requires arr.JArr? && i <= |arr.items|
    requires AllBelowIndex(kind, Elements(kind, arr, path, level + 1, i), path, level + 1, |arr.items|)
    ensures AllUnder(kind, Elements(kind, arr, path, level + 1, i), path, level, true)
  {
  }

  // ---------------------------------------------------------------------
  // The properties the chunker promises

  /** A scalar at the root gives exactly one chunk: the path joined by spaces,
      a colon and the value, at the starting level and path. */
  lemma RootScalar(kind: Variant, v: Json, path: seq<string>, level: nat)
    requires !IsCompound(v)
    ensures var r := Chunks(kind, v, path, level);
            |r| == 1 && r[0].text == Join(" ", path) + ": " + Template(v)
            && r[0].path == path && r[0].level == level
            && r[0].source == VariantName(kind) + " " + Head(path)
  {
  }

  /** For a compound value, every chunk's source names the top-level field the
      walk started from, and its path extends the starting path. */
  lemma SourceIsTopField(kind: Variant, obj: Json, field: string)
    requires IsCompound(obj)
    ensures forall c :: c in Chunks(kind, obj, [field], 0) ==> FromTopField(kind, c, field)
  {
    var r := Chunks(kind, obj, [field], 0);
    ChunksShape(kind, obj, [field], 0);
    forall c | c in r ensures FromTopField(kind, c, field) {
      var j :| 0 <= j < |r| && r[j] == c;
      TopFieldChunk(kind, c, field);
    }
  }

  predicate FromTopField(kind: Variant, c: Chunk, field: string)
  {
    c.source == VariantName(kind) + " " + field && |c.path| >= 2 && c.path[0] == field
    && c.level == |c.path| - 1 && c.keywords == ExtractKeywords(c.text)
  }

  lemma TopFieldChunk(kind: Variant, c: Chunk, field: string)
    requires Labelled(kind, c) && Under(c, [field], 0) && |c.path| > 1
    ensures FromTopField(kind, c, field)
  {
    assert c.path[..1] == [field];
  }

  /** A scalar child of an object gives the chunk "key: value" at level + 1
      with path + [key]. */
  lemma ObjectScalarChild(kind: Variant, fields: seq<Field>, k: nat, path: seq<string>, level: nat)
    requires k < |fields| && !IsCompound(fields[k].value)
    ensures var f := fields[k];
            MakeChunk(kind, f.key + ": " + Template(f.value), path + [f.key], level + 1)
              in Chunks(kind, JObj(fields), path, level)
  {
    MemberIn(kind, JObj(fields), path, level, 0, k);
  }

  /** The chunks of member k appear inside those of the loop from any i <= k. */
  lemma {:induction false} MemberIn(kind: Variant, obj: Json, path: seq<string>, level: nat, i: nat, k: nat)
    requires obj.JObj? && i <= k < |obj.fields|
    ensures var f := obj.fields[k];
            forall c :: c in Child(kind, f.key, f.value, path, level) ==> c in Members(kind, obj, path, level, i)
    decreases k - i
  {
    var here := Child(kind, obj.fields[i].key, obj.fields[i].value, path, level);
    var rest := Members(kind, obj, path, level, i + 1);
    assert Members(kind, obj, path, level, i) == here + rest;
    if i < k {
      MemberIn(kind, obj, path, level, i + 1, k);
    }
  }

  /** An array or object child puts its summary first; everything after it lies
      strictly below path + [key]. */
  lemma SummaryFirst(kind: Variant, key: string, content: Json, path: seq<string>, level: nat)
    requires IsCompound(content)
    ensures var r := Child(kind, key, content, path, level);
            |r| >= 1 && r[0].path == path + [key] && r[0].level == level + 1
            && r[0].text == key + ": " + (if content.JArr? then ArrayJoin(content.items, 0, "; ") else Stringify(content))
            && forall j :: 1 <= j < |r| ==> |r[j].path| > |path| + 1 && r[j].path[..|path| + 1] == path + [key]
  {
    var newPath := path + [key];
    var r := Child(kind, key, content, path, level);
    if content.JArr? {
      ElementsShape(kind, content, newPath, level + 2, 0);
      assert r[1..] == Elements(kind, content, newPath, level + 2, 0);
    } else {
      ChunksShape(kind, content, newPath, level + 1);
      assert r[1..] == Chunks(kind, content, newPath, level + 1);
    }
    forall j | 1 <= j < |r| ensures |r[j].path| > |newPath| && r[j].path[..|newPath|] == newPath {
      assert r[j] == r[1..][j - 1];
    }
  }

  /** Array elements are walked with their index appended to the path, two
      levels below the array's own level: the element chunks of an array child
      lie below path + [key, String(i)] for an index i of the array. */
  lemma ArrayElementsBelowIndex(kind: Variant, key: string, items: seq<Json>, path: seq<string>, level: nat)
    ensures var r := Child(kind, key, JArr(items), path, level);
            var newPath := path + [key];
            forall j :: 1 <= j < |r| ==>
              |r[j].path| > |newPath| && r[j].path[..|newPath|] == newPath
              && r[j].path[|newPath|] in IndexKeys(|items|)
              && r[j].level == level + 2 + |r[j].path| - |newPath| - 1
  {
    var newPath := path + [key];
    var r := Child(kind, key, JArr(items), path, level);
    ElementsShape(kind, JArr(items), newPath, level + 2, 0);
    assert r[1..] == Elements(kind, JArr(items), newPath, level + 2, 0);
    forall j | 1 <= j < |r| ensures r[j] == r[1..][j - 1] { }
  }
}

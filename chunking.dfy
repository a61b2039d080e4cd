/**
 * The offline build (scripts/build_vector_store.py): parsed scheme and
 * guide records become an ordered list of (text, metadata) chunks, and
 * the chunks become a vector index and a document store that are aligned
 * row by row.
 *
 * Files are not read here: a corpus is the sequence of records as
 * `json.loads` returned them, in the order the directory listing gave.
 * The embedding model is a function from text to vector.
 */
module Chunking {
  import opened Wrappers
  import opened Text
  import opened PyJson

  /**
   * A chunk's metadata dict. Its key order plays no part in any behaviour
   * of the pipeline, so it is a map.
   */
  type Meta = map<string, Json>

  /** `metadata.get(key)`. */
  function MetaGet(md: Meta, key: string): Json
  {
    if key in md then md[key] else Null
  }

  /** One citable fact: its sentence and its metadata dict. */
  datatype Chunk = Chunk(text: string, metadata: Meta)

  /**
   * Why the build stops: a record of the wrong shape (reading it raises
   * `KeyError`, `TypeError` or `AttributeError`), or an empty corpus.
   */
  datatype BuildError = Malformed | NoChunks

  const OverviewType: Json := Str("scheme_overview")
  const AttributeType: Json := Str("scheme_attribute")
  const DocumentType: Json := Str("scheme_document")
  const GuideType: Json := Str("guide")

  function ChunkType(c: Chunk): Json { MetaGet(c.metadata, "type") }

  function ChunkUrl(c: Chunk): Json { MetaGet(c.metadata, "url") }

  /** `d[key]`: a missing key aborts the build. */
  function Require(fs: Fields, key: string): Result<Json, BuildError>
  {
    match Lookup(fs, key)
    case Some(v) => Ok(v)
    case None => Err(Malformed)
  }

  /** The values `for x in j` visits; a value that cannot be iterated aborts the build. */
  function Items(j: Json): Result<seq<Json>, BuildError>
  {
    match Iterate(j)
    case Some(xs) => Ok(xs)
    case None => Err(Malformed)
  }

  /** `prefix + r` when `r` succeeded; the failure otherwise. */
  function Prepend(prefix: seq<Chunk>, r: Result<seq<Chunk>, BuildError>): Result<seq<Chunk>, BuildError>
  {
    match r
    case Ok(v) => Ok(prefix + v)
    case Err(e) => Err(e)
  }

  lemma PrependNil(r: Result<seq<Chunk>, BuildError>)
    ensures Prepend([], r) == r
  {
    if r.Ok? {
      assert [] + r.value == r.value;
    }
  }

  lemma PrependPrepend(a: seq<Chunk>, b: seq<Chunk>, r: Result<seq<Chunk>, BuildError>)
    ensures Prepend(a, Prepend(b, r)) == Prepend(a + b, r)
  {
    if r.Ok? {
      assert a + (b + r.value) == a + b + r.value;
    }
  }

  /** The chunks of every record in turn; the first record that fails aborts the whole list. */
  function AllChunks(extract: Json -> Result<seq<Chunk>, BuildError>, records: seq<Json>): Result<seq<Chunk>, BuildError>
  {
    if records == [] then Ok([])
    else
      var first :- extract(records[0]);
      Prepend(first, AllChunks(extract, records[1..]))
  }

  // ---------------------------------------------------------------------
  // Scheme records

  /** The sentence introducing a scheme, cited to the scheme page. */
  function OverviewChunk(scheme: Json, sourceUrl: Json, meta: Fields): (c: Chunk)
    ensures ChunkType(c) == OverviewType && ChunkUrl(c) == sourceUrl
    ensures MetaGet(c.metadata, "scheme") == scheme
    ensures StartsWith(c.text, Show(scheme) + " is a ")
    ensures EndsWith(c.text, ". Data source: " + Show(sourceUrl))
    ensures c.text == Show(scheme) + " is a " + Show(Get(meta, "category")) + " scheme in the "
      + Show(Get(meta, "sub_category")) + " category offered by " + Show(Get(meta, "fund_house"))
      + ". Data source: " + Show(sourceUrl)
  {
    var head := Show(scheme) + " is a ";
    var body := Show(Get(meta, "category")) + " scheme in the " + Show(Get(meta, "sub_category"))
      + " category offered by " + Show(Get(meta, "fund_house"));
    var tail := ". Data source: " + Show(sourceUrl);
    Affixes(head, body, tail);
    Chunk(
      head + body + tail,
      map["type" := OverviewType, "scheme" := scheme, "url" := sourceUrl])
  }

  /**
   * What an attribute's sentence shows. For a dict this is its `value`
   * when that is a string, and otherwise `display or value`; any other
   * attribute shows itself. `None` means the attribute is skipped.
   */
  function Description(value: Json): Json
  {
    match value
    case Object(fs) =>
      var display := Or(Get(fs, "display"), Get(fs, "value"));
      if Get(fs, "value").Str? then Get(fs, "value") else display
    case _ => value
  }

  /**
   * Whether an attribute yields a chunk, stated without the resolution
   * chain: a dict does when its `display` is truthy or it has a `value`
   * that is not `None`; anything else does unless it is `None`.
   */
  predicate Emitted(value: Json)
  {
    if value.Object? then Truthy(Get(value.fields, "display")) || Get(value.fields, "value") != Null
    else value != Null
  }

  /** The URL an attribute cites: a dict's own `source_url` key when present, else the scheme's. */
  function AttributeUrl(sourceUrl: Json, value: Json): Json
  {
    match value
    case Object(fs) => GetOr(fs, "source_url", sourceUrl)
    case _ => sourceUrl
  }

  /** `field.replace("_", " ").title()`. */
  function Label(field: string): (r: string)
    ensures |r| == |field|
    ensures forall i :: 0 <= i < |r| ==> r[i] != '_'
    ensures Lower(r) == Lower(ReplaceChar(field, '_', ' '))
    ensures Title(r) == r
  {
    var spaced := ReplaceChar(field, '_', ' ');
    TitleKeepsNonLetters(spaced);
    LowerTitle(spaced);
    TitleIdempotent(spaced);
    Title(spaced)
  }

  /** The sentence for one attribute, or `None` when its description is `None`. */
  function AttributeChunk(scheme: Json, sourceUrl: Json, field: string, value: Json): (r: Option<Chunk>)
    ensures r.Some? <==> Emitted(value)
  {
    var description := Description(value);
    if description == Null then None
    else
      var url := AttributeUrl(sourceUrl, value);
      Some(Chunk(
        Show(scheme) + " - " + Label(field) + ": " + Show(description) + ". Source: " + Show(url),
        map["type" := AttributeType, "field" := Str(field), "scheme" := scheme, "url" := url]))
  }

  /**
   * An attribute's chunk is typed, names its field and scheme, cites the
   * dict's own `source_url` when it has that key and the scheme page
   * otherwise, and its sentence opens with the labelled field and closes
   * with the cited URL.
   */
  lemma AttributeChunkShape(scheme: Json, sourceUrl: Json, field: string, value: Json)
    requires Emitted(value)
    ensures var c := AttributeChunk(scheme, sourceUrl, field, value).value;
      && ChunkType(c) == AttributeType
      && MetaGet(c.metadata, "field") == Str(field) && MetaGet(c.metadata, "scheme") == scheme
      && (value.Object? && Lookup(value.fields, "source_url").Some? ==> ChunkUrl(c) == Lookup(value.fields, "source_url").value)
      && (!(value.Object? && Lookup(value.fields, "source_url").Some?) ==> ChunkUrl(c) == sourceUrl)
      && StartsWith(c.text, Show(scheme) + " - " + Label(field) + ": ")
      && EndsWith(c.text, ". Source: " + Show(ChunkUrl(c)))
      && c.text == Show(scheme) + " - " + Label(field) + ": " + Show(Description(value)) + ". Source: " + Show(ChunkUrl(c))
  {
    var url := AttributeUrl(sourceUrl, value);
    Affixes(Show(scheme) + " - " + Label(field) + ": ", Show(Description(value)), ". Source: " + Show(url));
  }

  /** The chunks one attribute contributes: its chunk, or none. */
  function AttributeStep(scheme: Json, sourceUrl: Json, attribute: (string, Json)): seq<Chunk>
  {
    match AttributeChunk(scheme, sourceUrl, attribute.0, attribute.1)
    case Some(c) => [c]
    case None => []
  }

  function AttributeChunks(scheme: Json, sourceUrl: Json, attributes: Fields): seq<Chunk>
  {
    if attributes == [] then []
    else AttributeStep(scheme, sourceUrl, attributes[0]) + AttributeChunks(scheme, sourceUrl, attributes[1..])
  }

  /**
   * The sentence naming a linked document. The sentence prints the
   * document's own `url` (`None` when it has none), while the chunk cites
   * that `url` or, failing it, the scheme page.
   */
  function DocumentChunk(scheme: Json, sourceUrl: Json, doc: Json): (r: Result<Chunk, BuildError>)
    ensures r.Ok? <==> doc.Object?
    ensures r.Ok? ==> ChunkType(r.value) == DocumentType && MetaGet(r.value.metadata, "scheme") == scheme
    ensures r.Ok? && Lookup(doc.fields, "url").Some? ==> ChunkUrl(r.value) == Lookup(doc.fields, "url").value
    ensures r.Ok? && Lookup(doc.fields, "url").None? ==> ChunkUrl(r.value) == sourceUrl
    ensures r.Ok? ==>
      r.value.text == Show(scheme) + " has a " + Show(Get(doc.fields, "type")) + " document at " + Show(Get(doc.fields, "url")) + "."
  {
    match doc
    case Object(d) =>
      Ok(Chunk(
        Show(scheme) + " has a " + Show(Get(d, "type")) + " document at " + Show(Get(d, "url")) + ".",
        map["type" := DocumentType, "scheme" := scheme, "url" := GetOr(d, "url", sourceUrl)]))
    case _ => Err(Malformed)
  }

  function DocumentChunks(scheme: Json, sourceUrl: Json, docs: seq<Json>): Result<seq<Chunk>, BuildError>
  {
    if docs == [] then Ok([])
    else
      var c :- DocumentChunk(scheme, sourceUrl, docs[0]);
      Prepend([c], DocumentChunks(scheme, sourceUrl, docs[1..]))
  }

  /** The chunks of one scheme record, in the order `load_scheme_chunks` yields them. */
  function SchemeChunks(payload: Json): Result<seq<Chunk>, BuildError>
  {
    if !payload.Object? then Err(Malformed)
    else
      var p := payload.fields;
      var scheme :- Require(p, "scheme_name");
      var sourceUrl :- Require(p, "source_url");
      var meta :- Require(p, "metadata");
      if !meta.Object? then Err(Malformed)
      else
        var attributes := GetOr(p, "attributes", Object([]));
        if !attributes.Object? then Err(Malformed)
        else
          var docs :- Items(GetOr(p, "documents", Array([])));
          Prepend(
            [OverviewChunk(scheme, sourceUrl, meta.fields)] + AttributeChunks(scheme, sourceUrl, attributes.fields),
            DocumentChunks(scheme, sourceUrl, docs))
  }

  // ---------------------------------------------------------------------
  // Guide records

  /** The string items of an iteration, as `" ".join` needs them. */
  function StringItems(xs: seq<Json>): (r: Result<seq<string>, BuildError>)
    ensures r.Ok? <==> forall k :: 0 <= k < |xs| ==> xs[k].Str?
    ensures r.Ok? ==> |r.value| == |xs| && forall k :: 0 <= k < |xs| ==> xs[k] == Str(r.value[k])
  {
    if forall k :: 0 <= k < |xs| ==> xs[k].Str? then
      Ok(seq(|xs|, k requires 0 <= k < |xs| && xs[k].Str? => xs[k].s))
    else Err(Malformed)
  }

  /** A method's `steps` (an empty list when absent), which must all be strings. */
  function MethodSteps(m: Fields): Result<seq<string>, BuildError>
  {
    var stepItems :- Items(GetOr(m, "steps", Array([])));
    StringItems(stepItems)
  }

  /** One how-to method: its label, its steps joined by single spaces, and the guide page. */
  function MethodChunk(guideKey: Json, sourceUrl: Json, entry: Json): (r: Result<Chunk, BuildError>)
    ensures r.Err? <==> !entry.Object? || MethodSteps(entry.fields).Err? || Lookup(entry.fields, "label").None?
    ensures r.Ok? ==> entry.Object? && Lookup(entry.fields, "label").Some?
    ensures r.Ok? ==> ChunkType(r.value) == GuideType && ChunkUrl(r.value) == sourceUrl
    ensures r.Ok? ==> MetaGet(r.value.metadata, "guide_key") == guideKey
    ensures r.Ok? ==> MetaGet(r.value.metadata, "label") == Lookup(entry.fields, "label").value
    ensures r.Ok? ==> StartsWith(r.value.text, Show(Lookup(entry.fields, "label").value) + ": ")
    ensures r.Ok? ==> EndsWith(r.value.text, " Source: " + Show(sourceUrl))
    ensures r.Ok? ==>
      r.value.text == Show(Lookup(entry.fields, "label").value) + ": " + Join(" ", MethodSteps(entry.fields).value) + " Source: " + Show(sourceUrl)
  {
    if !entry.Object? then Err(Malformed)
    else
      var m := entry.fields;
      var steps :- MethodSteps(m);
      var joined := Join(" ", steps);
      var methodLabel :- Require(m, "label");
      var head := Show(methodLabel) + ": ";
      var tail := " Source: " + Show(sourceUrl);
      Affixes(head, joined, tail);
      Ok(Chunk(
        head + joined + tail,
        map["type" := GuideType, "guide_key" := guideKey, "label" := methodLabel, "url" := sourceUrl]))
  }

  function MethodChunks(guideKey: Json, sourceUrl: Json, methods: seq<Json>): Result<seq<Chunk>, BuildError>
  {
    if methods == [] then Ok([])
    else
      var c :- MethodChunk(guideKey, sourceUrl, methods[0]);
      Prepend([c], MethodChunks(guideKey, sourceUrl, methods[1..]))
  }

  /** The chunks of one guide record, in the order `load_guide_chunks` yields them. */
  function GuideChunks(payload: Json): Result<seq<Chunk>, BuildError>
  {
    if !payload.Object? then Err(Malformed)
    else
      var p := payload.fields;
      var sourceUrl :- Require(p, "source_url");
      var guideKey :- Require(p, "guide_key");
      var methods :- Items(GetOr(p, "methods", Array([])));
      MethodChunks(guideKey, sourceUrl, methods)
  }

  // ---------------------------------------------------------------------
  // The corpus

  /** `collect_chunks`: all scheme chunks, then all guide chunks; an empty list is an error. */
  function Chunks(schemes: seq<Json>, guides: seq<Json>): (r: Result<seq<Chunk>, BuildError>)
    ensures r == Err(Malformed) <==> AllChunks(SchemeChunks, schemes).Err? || AllChunks(GuideChunks, guides).Err?
    ensures r == Err(NoChunks) <==> AllChunks(SchemeChunks, schemes) == Ok([]) && AllChunks(GuideChunks, guides) == Ok([])
    ensures r.Ok? ==> |r.value| > 0
    ensures r.Ok? ==> AllChunks(SchemeChunks, schemes).Ok? && AllChunks(GuideChunks, guides).Ok?
    ensures r.Ok? ==> r.value == AllChunks(SchemeChunks, schemes).value + AllChunks(GuideChunks, guides).value
  {
    match AllChunks(SchemeChunks, schemes)
    case Err(_) => Err(Malformed)
    case Ok(s) =>
      match AllChunks(GuideChunks, guides)
      case Err(_) => Err(Malformed)
      case Ok(g) =>
        assert |s + g| == 0 <==> s == [] && g == [];
        if |s + g| == 0 then Err(NoChunks) else Ok(s + g)
  }

  lemma AttributeChunksStep(scheme: Json, sourceUrl: Json, attributes: Fields, i: int, chunks: seq<Chunk>)
    requires 0 <= i < |attributes|
    ensures chunks + AttributeChunks(scheme, sourceUrl, attributes[i..])
      == (chunks + AttributeStep(scheme, sourceUrl, attributes[i])) + AttributeChunks(scheme, sourceUrl, attributes[i + 1..])
  {
    assert attributes[i..][1..] == attributes[i + 1..];
  }

  /** The attribute loop of `load_scheme_chunks`: one chunk per attribute whose description is not `None`. */
  method LoadAttributes(scheme: Json, sourceUrl: Json, attributes: Fields) returns (chunks: seq<Chunk>)
    ensures chunks == AttributeChunks(scheme, sourceUrl, attributes)
  {
    chunks := [];
    var i := 0;
    while i < |attributes|
      invariant 0 <= i <= |attributes|
      invariant chunks + AttributeChunks(scheme, sourceUrl, attributes[i..]) == AttributeChunks(scheme, sourceUrl, attributes)
    {
      AttributeChunksStep(scheme, sourceUrl, attributes, i, chunks);
      chunks := chunks + AttributeStep(scheme, sourceUrl, attributes[i]);
      i := i + 1;
    }
    assert attributes[i..] == [];
    assert chunks + [] == chunks;
  }

  /** The document loop of `load_scheme_chunks`: one chunk per linked document. */
  method LoadDocuments(scheme: Json, sourceUrl: Json, docs: seq<Json>) returns (r: Result<seq<Chunk>, BuildError>)
    ensures r == DocumentChunks(scheme, sourceUrl, docs)
  {
    var chunks := [];
    var j := 0;
    PrependNil(DocumentChunks(scheme, sourceUrl, docs));
    while j < |docs|
      invariant 0 <= j <= |docs|
      invariant Prepend(chunks, DocumentChunks(scheme, sourceUrl, docs[j..])) == DocumentChunks(scheme, sourceUrl, docs)
    {
      assert docs[j..][1..] == docs[j + 1..];
      var c := DocumentChunk(scheme, sourceUrl, docs[j]);
      if c.Err? {
        return Err(c.error);
      }
      PrependPrepend(chunks, [c.value], DocumentChunks(scheme, sourceUrl, docs[j + 1..]));
      chunks := chunks + [c.value];
      j := j + 1;
    }
    assert docs[j..] == [];
    assert chunks + [] == chunks;
    return Ok(chunks);
  }

  /** `load_scheme_chunks` for one record: the overview, then its attributes, then its documents. */
  method LoadScheme(payload: Json) returns (r: Result<seq<Chunk>, BuildError>)
    ensures r == SchemeChunks(payload)
  {
    if !payload.Object? {
      return Err(Malformed);
    }
    var p := payload.fields;
    var scheme :- Require(p, "scheme_name");
    var sourceUrl :- Require(p, "source_url");
    var meta :- Require(p, "metadata");
    if !meta.Object? {
      return Err(Malformed);
    }
    var overview := OverviewChunk(scheme, sourceUrl, meta.fields);
    var attributes := GetOr(p, "attributes", Object([]));
    if !attributes.Object? {
      return Err(Malformed);
    }
    var attributeChunks := LoadAttributes(scheme, sourceUrl, attributes.fields);
    var docs :- Items(GetOr(p, "documents", Array([])));
    var documentChunks :- LoadDocuments(scheme, sourceUrl, docs);
    return Ok([overview] + attributeChunks + documentChunks);
  }

  /** `load_scheme_chunks`: the loop over scheme records. */
  method LoadSchemeChunks(payloads: seq<Json>) returns (r: Result<seq<Chunk>, BuildError>)
    ensures r == AllChunks(SchemeChunks, payloads)
  {
    var chunks := [];
    var i := 0;
    PrependNil(AllChunks(SchemeChunks, payloads));
    while i < |payloads|
      invariant 0 <= i <= |payloads|
      invariant Prepend(chunks, AllChunks(SchemeChunks, payloads[i..])) == AllChunks(SchemeChunks, payloads)
    {
      assert payloads[i..][1..] == payloads[i + 1..];
      var one := LoadScheme(payloads[i]);
      if one.Err? {
        return Err(one.error);
      }
      PrependPrepend(chunks, one.value, AllChunks(SchemeChunks, payloads[i + 1..]));
      chunks := chunks + one.value;
      i := i + 1;
    }
    assert payloads[i..] == [];
    assert chunks + [] == chunks;
    return Ok(chunks);
  }

  /** `load_guide_chunks` for one record: the loop over its methods. */
  method LoadGuide(payload: Json) returns (r: Result<seq<Chunk>, BuildError>)
    ensures r == GuideChunks(payload)
  {
    if !payload.Object? {
      return Err(Malformed);
    }
    var p := payload.fields;
    var sourceUrl :- Require(p, "source_url");
    var guideKey :- Require(p, "guide_key");
    var methods :- Items(GetOr(p, "methods", Array([])));
    var chunks := [];
    var i := 0;
    PrependNil(MethodChunks(guideKey, sourceUrl, methods));
    while i < |methods|
      invariant 0 <= i <= |methods|
      invariant Prepend(chunks, MethodChunks(guideKey, sourceUrl, methods[i..])) == MethodChunks(guideKey, sourceUrl, methods)
    {
      assert methods[i..][1..] == methods[i + 1..];
      var c := MethodChunk(guideKey, sourceUrl, methods[i]);
      if c.Err? {
        return Err(c.error);
      }
      PrependPrepend(chunks, [c.value], MethodChunks(guideKey, sourceUrl, methods[i + 1..]));
      chunks := chunks + [c.value];
      i := i + 1;
    }
    assert methods[i..] == [];
    assert chunks + [] == chunks;
    return Ok(chunks);
  }

  /** `load_guide_chunks`: the loop over guide records. */
  method LoadGuideChunks(payloads: seq<Json>) returns (r: Result<seq<Chunk>, BuildError>)
    ensures r == AllChunks(GuideChunks, payloads)
  {
    var chunks := [];
    var i := 0;
    PrependNil(AllChunks(GuideChunks, payloads));
    while i < |payloads|
      invariant 0 <= i <= |payloads|
      invariant Prepend(chunks, AllChunks(GuideChunks, payloads[i..])) == AllChunks(GuideChunks, payloads)
    {
      assert payloads[i..][1..] == payloads[i + 1..];
      var one := LoadGuide(payloads[i]);
      if one.Err? {
        return Err(one.error);
      }
      PrependPrepend(chunks, one.value, AllChunks(GuideChunks, payloads[i + 1..]));
      chunks := chunks + one.value;
      i := i + 1;
    }
    assert payloads[i..] == [];
    assert chunks + [] == chunks;
    return Ok(chunks);
  }

  /** `collect_chunks`: the scheme list, extended in place by the guide chunks. */
  method CollectChunks(schemes: seq<Json>, guides: seq<Json>) returns (r: Result<seq<Chunk>, BuildError>)
    ensures r == Chunks(schemes, guides)
  {
    var schemeChunks := LoadSchemeChunks(schemes);
    if schemeChunks.Err? {
      return Err(Malformed);
    }
    var guideChunks := LoadGuideChunks(guides);
    if guideChunks.Err? {
      return Err(Malformed);
    }
    var chunks := schemeChunks.value + guideChunks.value;
    if |chunks| == 0 {
      return Err(NoChunks);
    }
    return Ok(chunks);
  }

  // ---------------------------------------------------------------------
  // The vector store

  /**
   * What `build_index` persists: one vector per chunk in the FAISS index
   * and one `{text, metadata}` record per chunk in documents.json, both in
   * chunk order. `V` is the embedding model's vector type.
   */
  datatype VectorStore<V> = VectorStore(vectors: seq<V>, documents: seq<Chunk>)

  /** Row `k` of the index is the embedding of row `k` of the document store. */
  ghost predicate Aligned<V>(store: VectorStore<V>, embed: string -> V)
  {
    && |store.vectors| == |store.documents|
    && forall k :: 0 <= k < |store.vectors| ==> store.vectors[k] == embed(store.documents[k].text)
  }

  /** `build_index`: embed every chunk's text and keep the chunks alongside. */
  function BuildIndex<V>(chunks: seq<Chunk>, embed: string -> V): (store: VectorStore<V>)
    ensures Aligned(store, embed)
    ensures store.documents == chunks
  {
    VectorStore(seq(|chunks|, k requires 0 <= k < |chunks| => embed(chunks[k].text)), chunks)
  }

  // ---------------------------------------------------------------------
  // What the corpus looks like

  predicate AllTyped(cs: seq<Chunk>, t: Json)
  {
    forall k :: 0 <= k < |cs| ==> ChunkType(cs[k]) == t
  }

  predicate AllOfScheme(cs: seq<Chunk>, scheme: Json)
  {
    forall k :: 0 <= k < |cs| ==> MetaGet(cs[k].metadata, "scheme") == scheme
  }

  /** Every chunk carries a `url` entry in its metadata. */
  predicate AllCited(cs: seq<Chunk>)
  {
    forall k :: 0 <= k < |cs| ==> "url" in cs[k].metadata
  }

  function CountType(cs: seq<Chunk>, t: Json): nat
  {
    if cs == [] then 0 else (if ChunkType(cs[0]) == t then 1 else 0) + CountType(cs[1..], t)
  }

  /** The number of attributes that yield a chunk. */
  function EmittedCount(attributes: Fields): nat
  {
    if attributes == [] then 0 else (if Emitted(attributes[0].1) then 1 else 0) + EmittedCount(attributes[1..])
  }

  lemma {:induction false} EmittedCountConcat(a: Fields, b: Fields)
    ensures EmittedCount(a + b) == EmittedCount(a) + EmittedCount(b)
  {
    if a == [] {
      assert a + b == b;
    } else {
      assert (a + b)[1..] == a[1..] + b;
      EmittedCountConcat(a[1..], b);
    }
  }

  /** Attributes none of which is emitted yield no chunk. */
  lemma {:induction false} EmittedCountNone(attributes: Fields)
    requires forall k :: 0 <= k < |attributes| ==> !Emitted(attributes[k].1)
    ensures EmittedCount(attributes) == 0
  {
    if attributes != [] {
      EmittedCountNone(attributes[1..]);
    }
  }

  lemma {:induction false} CountTypeConcat(a: seq<Chunk>, b: seq<Chunk>, t: Json)
    ensures CountType(a + b, t) == CountType(a, t) + CountType(b, t)
  {
    if a == [] {
      assert a + b == b;
    } else {
      assert (a + b)[1..] == a[1..] + b;
      CountTypeConcat(a[1..], b, t);
    }
  }

  lemma {:induction false} CountAllTyped(cs: seq<Chunk>, t: Json, u: Json)
    requires AllTyped(cs, t)
    ensures CountType(cs, u) == if t == u then |cs| else 0
  {
    if cs != [] {
      CountAllTyped(cs[1..], t, u);
    }
  }

  /** One chunk per emitted attribute. */
  lemma {:induction false} AttributeChunksCount(scheme: Json, sourceUrl: Json, attributes: Fields)
    ensures |AttributeChunks(scheme, sourceUrl, attributes)| == EmittedCount(attributes)
  {
    if attributes != [] {
      AttributeChunksCount(scheme, sourceUrl, attributes[1..]);
    }
  }

  /** The chunk one attribute contributes, if any, is typed, names the scheme and carries a URL. */
  lemma AttributeStepTyped(scheme: Json, sourceUrl: Json, attribute: (string, Json))
    ensures var cs := AttributeStep(scheme, sourceUrl, attribute);
      AllTyped(cs, AttributeType) && AllOfScheme(cs, scheme) && AllCited(cs)
  {
  }

  /** Every attribute chunk is typed as one, names the scheme and carries a URL. */
  lemma {:induction false} AttributeChunksTyped(scheme: Json, sourceUrl: Json, attributes: Fields)
    ensures var cs := AttributeChunks(scheme, sourceUrl, attributes);
      AllTyped(cs, AttributeType) && AllOfScheme(cs, scheme) && AllCited(cs)
  {
    if attributes != [] {
      AttributeChunksTyped(scheme, sourceUrl, attributes[1..]);
      var head := AttributeStep(scheme, sourceUrl, attributes[0]);
      var rest := AttributeChunks(scheme, sourceUrl, attributes[1..]);
      AttributeStepTyped(scheme, sourceUrl, attributes[0]);
      AllTypedConcat(head, rest, AttributeType);
      AllCitedConcat(head, rest);
      AllOfSchemeConcat(head, rest, scheme);
    }
  }

  lemma AttributeChunksShape(scheme: Json, sourceUrl: Json, attributes: Fields)
    ensures var cs := AttributeChunks(scheme, sourceUrl, attributes);
      && |cs| == EmittedCount(attributes)
      && AllTyped(cs, AttributeType) && AllOfScheme(cs, scheme) && AllCited(cs)
  {
    AttributeChunksCount(scheme, sourceUrl, attributes);
    AttributeChunksTyped(scheme, sourceUrl, attributes);
  }

  /** The document loop fails exactly when some listed document is not a dict. */
  lemma {:induction false} DocumentChunksShape(scheme: Json, sourceUrl: Json, docs: seq<Json>)
    ensures DocumentChunks(scheme, sourceUrl, docs).Ok? <==> forall k :: 0 <= k < |docs| ==> docs[k].Object?
    ensures DocumentChunks(scheme, sourceUrl, docs).Ok? ==>
      var cs := DocumentChunks(scheme, sourceUrl, docs).value;
      && |cs| == |docs|
      && AllTyped(cs, DocumentType) && AllOfScheme(cs, scheme) && AllCited(cs)
  {
    if docs != [] {
      DocumentChunksShape(scheme, sourceUrl, docs[1..]);
      assert forall k :: 1 <= k < |docs| ==> docs[k] == docs[1..][k - 1];
    }
  }

  /** An overview, then attribute chunks, then document chunks, all of one scheme and all cited. */
  lemma SchemeParts(overview: Chunk, ac: seq<Chunk>, dc: seq<Chunk>, scheme: Json)
    requires ChunkType(overview) == OverviewType && MetaGet(overview.metadata, "scheme") == scheme && "url" in overview.metadata
    requires AllTyped(ac, AttributeType) && AllOfScheme(ac, scheme) && AllCited(ac)
    requires AllTyped(dc, DocumentType) && AllOfScheme(dc, scheme) && AllCited(dc)
    ensures var cs := [overview] + ac + dc;
      && CountType(cs, OverviewType) == 1 && CountType(cs, GuideType) == 0
      && AllOfScheme(cs, scheme) && AllCited(cs)
  {
    var cs := [overview] + ac + dc;
    CountTypeConcat([overview], ac, OverviewType);
    CountTypeConcat([overview] + ac, dc, OverviewType);
    CountTypeConcat([overview], ac, GuideType);
    CountTypeConcat([overview] + ac, dc, GuideType);
    CountAllTyped(ac, AttributeType, OverviewType);
    CountAllTyped(dc, DocumentType, OverviewType);
    CountAllTyped(ac, AttributeType, GuideType);
    CountAllTyped(dc, DocumentType, GuideType);
    assert CountType([overview], OverviewType) == 1;
    assert CountType([overview], GuideType) == 0;
    assert forall k :: 1 <= k < 1 + |ac| ==> cs[k] == ac[k - 1];
    assert forall k :: 1 + |ac| <= k < |cs| ==> cs[k] == dc[k - 1 - |ac|];
  }

  /**
   * A scheme record yields exactly one overview, first and cited to the
   * scheme page, then one chunk per emitted attribute and one per
   * document; every chunk names the scheme and carries a `url` metadata
   * entry.
   */
  lemma SchemeChunksShape(payload: Json)
    requires SchemeChunks(payload).Ok?
    ensures payload.Object? && Lookup(payload.fields, "scheme_name").Some? && Lookup(payload.fields, "source_url").Some?
    ensures var cs := SchemeChunks(payload).value;
      && |cs| >= 1
      && ChunkType(cs[0]) == OverviewType
      && ChunkUrl(cs[0]) == Lookup(payload.fields, "source_url").value
      && CountType(cs, OverviewType) == 1
      && CountType(cs, GuideType) == 0
      && AllOfScheme(cs, Lookup(payload.fields, "scheme_name").value)
      && AllCited(cs)
    ensures var p := payload.fields;
      var attributes := GetOr(p, "attributes", Object([]));
      var docs := Iterate(GetOr(p, "documents", Array([])));
      var cs := SchemeChunks(payload).value;
      && attributes.Object? && docs.Some?
      && var n := EmittedCount(attributes.fields);
         && |cs| == 1 + n + |docs.value|
         && AllTyped(cs[1..1 + n], AttributeType)
         && AllTyped(cs[1 + n..], DocumentType)
  {
    var p := payload.fields;
    var scheme := Lookup(p, "scheme_name").value;
    var sourceUrl := Lookup(p, "source_url").value;
    var meta := Lookup(p, "metadata").value;
    var attributes := GetOr(p, "attributes", Object([]));
    var docs := Iterate(GetOr(p, "documents", Array([]))).value;
    var overview := OverviewChunk(scheme, sourceUrl, meta.fields);
    var ac := AttributeChunks(scheme, sourceUrl, attributes.fields);
    var dc := DocumentChunks(scheme, sourceUrl, docs).value;
    AttributeChunksShape(scheme, sourceUrl, attributes.fields);
    DocumentChunksShape(scheme, sourceUrl, docs);
    assert SchemeChunks(payload).value == [overview] + ac + dc;
    SchemeParts(overview, ac, dc, scheme);
    PartsSlices(overview, ac, dc);
  }

  /** The middle and the tail of an overview followed by two runs of chunks. */
  lemma PartsSlices(overview: Chunk, ac: seq<Chunk>, dc: seq<Chunk>)
    ensures ([overview] + ac + dc)[1..1 + |ac|] == ac && ([overview] + ac + dc)[1 + |ac|..] == dc
  {
  }

  /** A guide record yields one guide chunk per method, each cited to the guide page. */
  lemma {:induction false} MethodChunksShape(guideKey: Json, sourceUrl: Json, methods: seq<Json>)
    requires MethodChunks(guideKey, sourceUrl, methods).Ok?
    ensures var cs := MethodChunks(guideKey, sourceUrl, methods).value;
      && |cs| == |methods|
      && AllTyped(cs, GuideType) && AllCited(cs)
      && forall k :: 0 <= k < |cs| ==> ChunkUrl(cs[k]) == sourceUrl && MetaGet(cs[k].metadata, "guide_key") == guideKey
  {
    if methods != [] {
      MethodChunksShape(guideKey, sourceUrl, methods[1..]);
    }
  }

  lemma AllChunksCons(extract: Json -> Result<seq<Chunk>, BuildError>, records: seq<Json>)
    requires records != [] && AllChunks(extract, records).Ok?
    ensures extract(records[0]).Ok? && AllChunks(extract, records[1..]).Ok?
    ensures AllChunks(extract, records).value == extract(records[0]).value + AllChunks(extract, records[1..]).value
  {
  }

  lemma AllCitedConcat(a: seq<Chunk>, b: seq<Chunk>)
    requires AllCited(a) && AllCited(b)
    ensures AllCited(a + b)
  {
    assert forall k :: |a| <= k < |a + b| ==> (a + b)[k] == b[k - |a|];
  }

  lemma AllOfSchemeConcat(a: seq<Chunk>, b: seq<Chunk>, scheme: Json)
    requires AllOfScheme(a, scheme) && AllOfScheme(b, scheme)
    ensures AllOfScheme(a + b, scheme)
  {
    assert forall k :: |a| <= k < |a + b| ==> (a + b)[k] == b[k - |a|];
  }

  lemma AllTypedConcat(a: seq<Chunk>, b: seq<Chunk>, t: Json)
    requires AllTyped(a, t) && AllTyped(b, t)
    ensures AllTyped(a + b, t)
  {
    assert forall k :: |a| <= k < |a + b| ==> (a + b)[k] == b[k - |a|];
  }

  /** All scheme records together: one overview per record and no guide chunk. */
  lemma {:induction false} SchemeCorpusShape(records: seq<Json>)
    requires AllChunks(SchemeChunks, records).Ok?
    ensures var cs := AllChunks(SchemeChunks, records).value;
      CountType(cs, OverviewType) == |records| && CountType(cs, GuideType) == 0 && AllCited(cs)
  {
    if records != [] {
      AllChunksCons(SchemeChunks, records);
      var first := SchemeChunks(records[0]).value;
      var rest := AllChunks(SchemeChunks, records[1..]).value;
      SchemeChunksShape(records[0]);
      SchemeCorpusShape(records[1..]);
      CountTypeConcat(first, rest, OverviewType);
      CountTypeConcat(first, rest, GuideType);
      AllCitedConcat(first, rest);
    }
  }

  /** A guide record yields guide chunks only, each carrying a URL. */
  lemma GuideChunksShape(payload: Json)
    requires GuideChunks(payload).Ok?
    ensures AllTyped(GuideChunks(payload).value, GuideType) && AllCited(GuideChunks(payload).value)
  {
    var p := payload.fields;
    var methods := Iterate(GetOr(p, "methods", Array([]))).value;
    MethodChunksShape(Lookup(p, "guide_key").value, Lookup(p, "source_url").value, methods);
  }

  /** All guide records together: guide chunks only, each carrying a URL. */
  lemma {:induction false} GuideCorpusShape(records: seq<Json>)
    requires AllChunks(GuideChunks, records).Ok?
    ensures var cs := AllChunks(GuideChunks, records).value;
      AllTyped(cs, GuideType) && AllCited(cs)
  {
    if records != [] {
      AllChunksCons(GuideChunks, records);
      GuideChunksShape(records[0]);
      GuideCorpusShape(records[1..]);
      var first := GuideChunks(records[0]).value;
      var rest := AllChunks(GuideChunks, records[1..]).value;
      AllCitedConcat(first, rest);
      AllTypedConcat(first, rest, GuideType);
    }
  }

  /**
   * The whole corpus: one overview chunk per scheme record, every chunk
   * carrying a URL, and the guide chunks after all scheme chunks.
   */
  lemma CorpusShape(schemes: seq<Json>, guides: seq<Json>)
    requires Chunks(schemes, guides).Ok?
    ensures var cs := Chunks(schemes, guides).value;
      && CountType(cs, OverviewType) == |schemes|
      && AllCited(cs)
      && var n := |AllChunks(SchemeChunks, schemes).value|;
         CountType(cs[..n], GuideType) == 0 && AllTyped(cs[n..], GuideType)
  {
    var s := AllChunks(SchemeChunks, schemes).value;
    var g := AllChunks(GuideChunks, guides).value;
    SchemeCorpusShape(schemes);
    GuideCorpusShape(guides);
    CountTypeConcat(s, g, OverviewType);
    CountAllTyped(g, GuideType, OverviewType);
    var cs := s + g;
    assert cs[..|s|] == s && cs[|s|..] == g;
    assert forall k :: |s| <= k < |cs| ==> cs[k] == g[k - |s|];
  }
}

/**
 * The field extractor's bookkeeping around the language-model call: reading a reply into
 * fields with defaults, merging the fields of several materials (the highest confidence
 * wins a header field, body rows are appended), and checking the required fields.
 */
module FieldExtractor {
  import opened Wrappers
  import opened Strings
  import opened Sightings
  import opened AiResponse

  /** A JSON value of a field: text, a number, or an object or array (kept opaque). */
  datatype Value = Text(text: string) | Number(number: real) | Structured

  /** One member of a parsed reply's object; an absent or null member is None. */
  datatype RawField = RawField(value: Option<Value>, confidence: Option<real>, source: Option<string>)

  /** A parsed JSON object: its members in key order. */
  type RawRecord = seq<(string, RawField)>

  datatype ExtractedField = ExtractedField(fieldName: string, value: Option<Value>, confidence: real, source: string)

  const DefaultConfidence: real := 0.5

  /** One field of the reply with its defaults: `value ?? null`, `confidence ?? 0.5`, `source ?? ''`. */
  function FillDefaults(key: string, raw: RawField): (f: ExtractedField)
    ensures f.fieldName == key && f.value == raw.value
    ensures raw.confidence.Some? ==> f.confidence == raw.confidence.value
    ensures raw.confidence.None? ==> f.confidence == DefaultConfidence
    ensures raw.source.Some? ==> f.source == raw.source.value
    ensures raw.source.None? ==> f.source == ""
  {
    ExtractedField(key, raw.value, raw.confidence.GetOr(DefaultConfidence), raw.source.GetOr(""))
  }

  function FillRecord(raw: RawRecord): (fields: seq<ExtractedField>)
    ensures |fields| == |raw|
    ensures forall i :: 0 <= i < |raw| ==> fields[i] == FillDefaults(raw[i].0, raw[i].1)
  {
    seq(|raw|, i requires 0 <= i < |raw| => FillDefaults(raw[i].0, raw[i].1))
  }

  /** The parsed reply: its `header` object when truthy, its `body` when it is an array. */
  datatype ParsedReply = ParsedReply(header: Option<RawRecord>, body: Option<seq<RawRecord>>)

  /** The header fields in key order, and one record per body row. */
  datatype Extraction = Extraction(header: seq<ExtractedField>, body: seq<seq<ExtractedField>>)

  /** The part of `parseExtractionResponse` after `JSON.parse`. */
  function ReadReply(parsed: ParsedReply): (e: Extraction)
    ensures parsed.header.None? ==> e.header == []
    ensures parsed.header.Some? ==> e.header == FillRecord(parsed.header.value)
    ensures parsed.body.None? ==> e.body == []
    ensures parsed.body.Some? ==>
      (|e.body| == |parsed.body.value| && forall i :: 0 <= i < |e.body| ==> e.body[i] == FillRecord(parsed.body.value[i]))
  {
    Extraction(
      if parsed.header.Some? then FillRecord(parsed.header.value) else [],
      if parsed.body.Some? then seq(|parsed.body.value|, i requires 0 <= i < |parsed.body.value| => FillRecord(parsed.body.value[i]))
      else [])
  }

  /**
   * `parseExtractionResponse`; `parse` stands for `JSON.parse`, None when it throws.
   * A reply without braces fails before parsing; one that does not parse fails after.
   */
  method ParseExtractionResponse(responseText: string, parse: string -> Option<ParsedReply>)
    returns (r: Result<Extraction, string>)
    ensures BraceSlice(Unfenced(responseText)).Err? ==> r == Err(NoJsonError)
    ensures BraceSlice(Unfenced(responseText)).Ok? ==>
      var parsed := parse(BraceSlice(Unfenced(responseText)).value);
      r == if parsed.None? then Err(ParseError) else Ok(ReadReply(parsed.value))
  {
    var text := PrepareJsonText(responseText);
    if text.Err? {
      return Err(text.error);
    }
    var parsed := parse(text.value);
    if parsed.None? {
      return Err(ParseError);
    }
    return Ok(ReadReply(parsed.value));
  }

  // ---- merging the fields of several materials ----

  /** One material's extraction, as `extractFields` returns it. */
  datatype MaterialExtraction = MaterialExtraction(materialType: string, fileName: string, extraction: Extraction)

  datatype SourceMaterial = SourceMaterial(materialType: string, fileName: string, extractedFields: seq<string>)

  /** `Object.keys(header)` */
  function FieldNames(fields: seq<ExtractedField>): (names: seq<string>)
    ensures |names| == |fields| && forall i :: 0 <= i < |fields| ==> names[i] == fields[i].fieldName
  {
    seq(|fields|, i requires 0 <= i < |fields| => fields[i].fieldName)
  }

  /** A material's header fields as sightings scored by confidence. */
  function HeaderSightingsOf(m: MaterialExtraction): (ss: seq<Sighting<ExtractedField>>)
    ensures |ss| == |m.extraction.header|
    ensures forall i :: 0 <= i < |ss| ==> ss[i] == Sighting(m.extraction.header[i].fieldName, m.fileName,
      m.extraction.header[i].confidence, 0, m.extraction.header[i])
  {
    var h := m.extraction.header;
    seq(|h|, i requires 0 <= i < |h| => Sighting(h[i].fieldName, m.fileName, h[i].confidence, 0, h[i]))
  }

  /** The header fields of the materials, material after material. */
  function HeaderSightings(ms: seq<MaterialExtraction>): seq<Sighting<ExtractedField>> {
    if |ms| == 0 then []
    else HeaderSightings(ms[..|ms| - 1]) + HeaderSightingsOf(ms[|ms| - 1])
  }

  /** A `Record<string, ExtractedField>`: the keys in insertion order and the field of each. */
  datatype HeaderMap = HeaderMap(keys: seq<string>, fields: map<string, ExtractedField>)

  ghost predicate ValidHeader(h: HeaderMap) {
    Distinct(h.keys) && forall k :: k in h.fields <==> k in h.keys
  }

  /** One header field of the merge: stored when its key is new or its confidence strictly higher. */
  function HeaderStep(h: HeaderMap, s: Sighting<ExtractedField>): HeaderMap {
    if s.key !in h.fields || h.fields[s.key].confidence < s.priority then
      HeaderMap(if s.key in h.fields then h.keys else h.keys + [s.key], h.fields[s.key := s.value])
    else h
  }

  function FoldHeader(ss: seq<Sighting<ExtractedField>>): (h: HeaderMap)
    ensures ValidHeader(h)
  {
    if |ss| == 0 then HeaderMap([], map[])
    else HeaderStep(FoldHeader(ss[..|ss| - 1]), ss[|ss| - 1])
  }

  /** Each sighting is scored by its field's confidence. */
  predicate ScoredByConfidence(ss: seq<Sighting<ExtractedField>>) {
    forall i :: 0 <= i < |ss| ==> ss[i].priority == ss[i].value.confidence
  }

  /** The merged header has a key for every field name met, in first-seen order. */
  lemma {:induction false} FoldHeaderKeys(ss: seq<Sighting<ExtractedField>>)
    ensures FoldHeader(ss).keys == Dedup(KeysOf(ss))
    ensures forall k :: k in FoldHeader(ss).fields <==> k in Winners(ss)
    decreases |ss|
  {
    if |ss| > 0 {
      var n := |ss| - 1;
      FoldHeaderKeys(ss[..n]);
      WinnersDomain(ss[..n]);
      assert KeysOf(ss)[..n] == KeysOf(ss[..n]);
    }
  }

  lemma {:induction false} FoldHeaderDomain(ss: seq<Sighting<ExtractedField>>)
    ensures forall k :: k in FoldHeader(ss).fields <==> k in Winners(ss)
    decreases |ss|
  {
    if |ss| > 0 {
      FoldHeaderDomain(ss[..|ss| - 1]);
    }
  }

  /** The field stored under a key is the winning sighting's field. */
  lemma {:induction false} FoldHeaderEntry(ss: seq<Sighting<ExtractedField>>, k: string)
    requires ScoredByConfidence(ss)
    requires k in FoldHeader(ss).fields
    ensures k in Winners(ss) && FoldHeader(ss).fields[k] == Winners(ss)[k].value
    decreases |ss|
  {
    FoldHeaderDomain(ss);
    var n := |ss| - 1;
    var s := ss[n];
    var front := ss[..n];
    var prev := FoldHeader(front);
    FoldHeaderDomain(front);
    assert ScoredByConfidence(front) by {
      forall i | 0 <= i < |front| ensures front[i].priority == front[i].value.confidence {
        assert front[i] == ss[i];
      }
    }
    assert FoldHeader(ss) == HeaderStep(prev, s);
    assert Winners(ss) == if s.key !in Winners(front) || Winners(front)[s.key].priority < s.priority
      then Winners(front)[s.key := s] else Winners(front);
    if k != s.key {
      FoldHeaderEntry(front, k);
    } else if k in prev.fields {
      FoldHeaderEntry(front, k);
      var i := WinnerIsFirstBest(front, k);
      assert front[i].priority == front[i].value.confidence;
    }
  }

  lemma {:induction false} HeaderSightingsScored(ms: seq<MaterialExtraction>)
    ensures ScoredByConfidence(HeaderSightings(ms))
    decreases |ms|
  {
    if |ms| > 0 {
      HeaderSightingsScored(ms[..|ms| - 1]);
    }
  }

  /**
   * A merged header field is the first, in material order, of the highest confidence
   * among the fields of its name; a later field of equal confidence does not replace it.
   */
  lemma MergedHeaderChoice(ms: seq<MaterialExtraction>, k: string) returns (i: nat)
    requires k in FoldHeader(HeaderSightings(ms)).fields
    ensures IsFirstBest(HeaderSightings(ms), i) && HeaderSightings(ms)[i].key == k
    ensures FoldHeader(HeaderSightings(ms)).fields[k] == HeaderSightings(ms)[i].value
  {
    HeaderSightingsScored(ms);
    FoldHeaderEntry(HeaderSightings(ms), k);
    i := WinnerIsFirstBest(HeaderSightings(ms), k);
  }

  /** The body rows of the materials, material after material. */
  function Bodies(ms: seq<MaterialExtraction>): seq<seq<ExtractedField>> {
    if |ms| == 0 then []
    else Bodies(ms[..|ms| - 1]) + ms[|ms| - 1].extraction.body
  }

  /** Every body row of every material is kept: the rows number the sum of the materials' rows. */
  lemma {:induction false} BodiesKeepAllRows(ms: seq<MaterialExtraction>, total: nat)
    requires total == SumRows(ms)
    ensures |Bodies(ms)| == total
    decreases |ms|
  {
    if |ms| > 0 {
      BodiesKeepAllRows(ms[..|ms| - 1], SumRows(ms[..|ms| - 1]));
    }
  }

  function SumRows(ms: seq<MaterialExtraction>): nat {
    if |ms| == 0 then 0 else SumRows(ms[..|ms| - 1]) + |ms[|ms| - 1].extraction.body|
  }

  function SourceOf(m: MaterialExtraction): SourceMaterial {
    SourceMaterial(m.materialType, m.fileName, FieldNames(m.extraction.header))
  }

  lemma FoldHeaderSnoc(ss: seq<Sighting<ExtractedField>>, s: Sighting<ExtractedField>)
    ensures FoldHeader(ss + [s]) == HeaderStep(FoldHeader(ss), s)
  {
    assert (ss + [s])[..|ss|] == ss;
  }

  /** One header field of the merge loop. */
  method StoreField(h: HeaderMap, fileName: string, field: ExtractedField) returns (r: HeaderMap)
    ensures r == HeaderStep(h, Sighting(field.fieldName, fileName, field.confidence, 0, field))
  {
    var key := field.fieldName;
    if key !in h.fields || field.confidence > h.fields[key].confidence {
      var keys := if key in h.fields then h.keys else h.keys + [key];
      return HeaderMap(keys, h.fields[key := field]);
    }
    return h;
  }

  /** The header merge of one material: its fields in key order. */
  method MergeMaterialHeader(h0: HeaderMap, ghost done: seq<Sighting<ExtractedField>>, m: MaterialExtraction)
    returns (h: HeaderMap)
    requires h0 == FoldHeader(done)
    ensures h == FoldHeader(done + HeaderSightingsOf(m))
  {
    h := h0;
    var fields := m.extraction.header;
    ghost var sights := HeaderSightingsOf(m);
    assert done + sights[..0] == done;
    var j := 0;
    while j < |fields|
      invariant 0 <= j <= |fields|
      invariant h == FoldHeader(done + sights[..j])
    {
      h := StoreField(h, m.fileName, fields[j]);
      AppendNext(done, sights, j);
      FoldHeaderSnoc(done + sights[..j], sights[j]);
      j := j + 1;
    }
    assert sights[..j] == sights;
  }

  /** One more material appends its header sightings and its body rows. */
  lemma MaterialsSnoc(materials: seq<MaterialExtraction>, i: nat)
    requires i < |materials|
    ensures HeaderSightings(materials[..i + 1]) == HeaderSightings(materials[..i]) + HeaderSightingsOf(materials[i])
    ensures Bodies(materials[..i + 1]) == Bodies(materials[..i]) + materials[i].extraction.body
  {
    assert materials[..i + 1][..i] == materials[..i];
  }

  /**
   * `extractFromMultipleMaterials`, given each material's extraction: one source entry per
   * material, the header merged by confidence, the body rows appended in material order.
   */
  method ExtractFromMultipleMaterials(materials: seq<MaterialExtraction>)
    returns (header: HeaderMap, body: seq<seq<ExtractedField>>, sources: seq<SourceMaterial>)
    ensures header == FoldHeader(HeaderSightings(materials))
    ensures body == Bodies(materials)
    ensures |sources| == |materials|
    ensures forall i :: 0 <= i < |materials| ==> sources[i] == SourceOf(materials[i])
  {
    header := HeaderMap([], map[]);
    body := [];
    sources := [];
    var i := 0;
    while i < |materials|
      invariant 0 <= i <= |materials|
      invariant header == FoldHeader(HeaderSightings(materials[..i]))
      invariant body == Bodies(materials[..i])
      invariant |sources| == i && forall j :: 0 <= j < i ==> sources[j] == SourceOf(materials[j])
    {
      var m := materials[i];
      MaterialsSnoc(materials, i);
      sources := sources + [SourceMaterial(m.materialType, m.fileName, FieldNames(m.extraction.header))];
      header := MergeMaterialHeader(header, HeaderSightings(materials[..i]), m);
      body := body + m.extraction.body;
      i := i + 1;
    }
    assert materials[..i] == materials;
  }

  // ---- checking the required fields ----

  const ConfidenceThreshold: real := 0.8

  /** The required fields absent from the header, in list order. */
  function MissingFields(required: seq<string>, fields: map<string, ExtractedField>): (missing: seq<string>)
    ensures forall f :: f in missing ==> f in required && f !in fields
    ensures forall f :: f in required && f !in fields ==> f in missing
  {
    if |required| == 0 then []
    else
      var front := MissingFields(required[..|required| - 1], fields);
      var f := required[|required| - 1];
      assert required == required[..|required| - 1] + [f];
      if f !in fields then front + [f] else front
  }

  /**
   * A line per required field present with a confidence below 0.8; `percent` stands for
   * the rounded percentage the source prints.
   */
  function LowConfidenceLines(required: seq<string>, fields: map<string, ExtractedField>, percent: real -> string)
    : (lines: seq<string>)
    ensures |lines| <= |required|
    ensures forall f :: f in required && f in fields && fields[f].confidence < ConfidenceThreshold ==>
      LowLine(f, fields, percent) in lines
  {
    if |required| == 0 then []
    else
      var front := LowConfidenceLines(required[..|required| - 1], fields, percent);
      var f := required[|required| - 1];
      assert required == required[..|required| - 1] + [f];
      if f in fields && fields[f].confidence < ConfidenceThreshold then front + [LowLine(f, fields, percent)]
      else front
  }

  /** The line for a low-confidence field: its name and its confidence as a percentage. */
  function LowLine(f: string, fields: map<string, ExtractedField>, percent: real -> string): string
    requires f in fields
  {
    f + " (" + percent(fields[f].confidence) + "%)"
  }

  predicate Confident(f: string, fields: map<string, ExtractedField>) {
    f in fields && fields[f].confidence >= ConfidenceThreshold
  }

  /** Each required field lands in at most one list, and both are empty exactly when all are present and confident. */
  lemma {:induction false} CheckListsPartition(required: seq<string>, fields: map<string, ExtractedField>, percent: real -> string)
    ensures |MissingFields(required, fields)| + |LowConfidenceLines(required, fields, percent)| <= |required|
    ensures (MissingFields(required, fields) == [] && LowConfidenceLines(required, fields, percent) == [])
      <==> forall i :: 0 <= i < |required| ==> Confident(required[i], fields)
    decreases |required|
  {
    if |required| > 0 {
      var front := required[..|required| - 1];
      CheckListsPartition(front, fields, percent);
      assert forall i :: 0 <= i < |front| ==> front[i] == required[i];
    }
  }

  /** A required field is listed as missing as often as it is required, when absent, and never when present. */
  lemma {:induction false} MissingFieldsCount(required: seq<string>, fields: map<string, ExtractedField>, f: string)
    ensures multiset(MissingFields(required, fields))[f] == (if f in fields then 0 else multiset(required)[f])
    decreases |required|
  {
    if |required| > 0 {
      var front := required[..|required| - 1];
      var g := required[|required| - 1];
      assert required == front + [g];
      MissingFieldsCount(front, fields, f);
    }
  }

  /** Every low-confidence line is the line of a required field present with a confidence below 0.8. */
  lemma {:induction false} LowConfidenceLineSource(required: seq<string>, fields: map<string, ExtractedField>,
                                                   percent: real -> string, i: nat) returns (f: string)
    requires i < |LowConfidenceLines(required, fields, percent)|
    ensures f in required && f in fields && fields[f].confidence < ConfidenceThreshold
    ensures LowConfidenceLines(required, fields, percent)[i] == LowLine(f, fields, percent)
    decreases |required|
  {
    var front := required[..|required| - 1];
    var g := required[|required| - 1];
    assert required == front + [g];
    var lines := LowConfidenceLines(front, fields, percent);
    if i < |lines| {
      f := LowConfidenceLineSource(front, fields, percent, i);
    } else {
      f := g;
    }
  }

  lemma CheckSnoc(required: seq<string>, i: nat, fields: map<string, ExtractedField>, percent: real -> string)
    requires i < |required|
    ensures MissingFields(required[..i + 1], fields)
      == MissingFields(required[..i], fields) + (if required[i] !in fields then [required[i]] else [])
    ensures LowConfidenceLines(required[..i + 1], fields, percent)
      == LowConfidenceLines(required[..i], fields, percent)
        + (if required[i] in fields && fields[required[i]].confidence < ConfidenceThreshold
           then [LowLine(required[i], fields, percent)] else [])
  {
    assert required[..i + 1][..i] == required[..i];
  }

  /** One pass of the loop of `validateExtractionResult`: the field at `i` joins at most one list. */
  method CheckField(required: seq<string>, i: nat, fields: map<string, ExtractedField>, percent: real -> string,
                    missing: seq<string>, lowConfidence: seq<string>)
    returns (missing': seq<string>, lowConfidence': seq<string>)
    requires i < |required|
    requires missing == MissingFields(required[..i], fields)
    requires lowConfidence == LowConfidenceLines(required[..i], fields, percent)
    ensures missing' == MissingFields(required[..i + 1], fields)
    ensures lowConfidence' == LowConfidenceLines(required[..i + 1], fields, percent)
  {
    var field := required[i];
    CheckSnoc(required, i, fields, percent);
    missing', lowConfidence' := missing, lowConfidence;
    if field !in fields {
      missing' := missing + [field];
    } else if fields[field].confidence < ConfidenceThreshold {
      lowConfidence' := lowConfidence + [LowLine(field, fields, percent)];
    }
  }

  datatype FieldCheck = FieldCheck(valid: bool, missing: seq<string>, lowConfidence: seq<string>)

  /** `validateExtractionResult` */
  method ValidateExtractionResult(header: HeaderMap, requiredFields: seq<string>, percent: real -> string)
    returns (r: FieldCheck)
    ensures r.missing == MissingFields(requiredFields, header.fields)
    ensures r.lowConfidence == LowConfidenceLines(requiredFields, header.fields, percent)
    ensures r.valid <==> forall i :: 0 <= i < |requiredFields| ==> Confident(requiredFields[i], header.fields)
  {
    var missing, lowConfidence := CheckRequiredFields(requiredFields, header.fields, percent);
    CheckListsPartition(requiredFields, header.fields, percent);
    r := FieldCheck(|missing| == 0 && |lowConfidence| == 0, missing, lowConfidence);
  }

  /** The loop of `validateExtractionResult` over the required fields. */
  method CheckRequiredFields(requiredFields: seq<string>, fields: map<string, ExtractedField>, percent: real -> string)
    returns (missing: seq<string>, lowConfidence: seq<string>)
    ensures missing == MissingFields(requiredFields, fields)
    ensures lowConfidence == LowConfidenceLines(requiredFields, fields, percent)
  {
    missing := [];
    lowConfidence := [];
    var i := 0;
    while i < |requiredFields|
      invariant 0 <= i <= |requiredFields|
      invariant missing == MissingFields(requiredFields[..i], fields)
      invariant lowConfidence == LowConfidenceLines(requiredFields[..i], fields, percent)
    {
      missing, lowConfidence := CheckField(requiredFields, i, fields, percent, missing, lowConfidence);
      i := i + 1;
    }
    assert requiredFields[..i] == requiredFields;
  }
}

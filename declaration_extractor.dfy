/**
 * The declaration extractor around its language-model call: the empty-input guard, the
 * per-material sections of the prompt, the preparation and parsing of the reply, and the
 * overall confidence of an extraction.
 */
module DeclarationExtractor {
  import opened Wrappers
  import opened Strings
  import opened AiResponse

  /** One material handed to `extractDeclaration`; `content` is absent when the file was not read. */
  datatype MaterialInput = MaterialInput(fileType: string, originalName: string, fileUrl: string, content: Option<string>)

  const FileTypeLabels: map<string, string> := map[
    "BILL_OF_LADING" := "提单",
    "INVOICE" := "发票",
    "PACKING_LIST" := "装箱单",
    "CONTRACT" := "合同",
    "CERTIFICATE" := "原产地证",
    "OTHER" := "其他文件"
  ]

  /** The label a section shows: the Chinese name of a known type, else the raw type. */
  function TypeLabel(fileType: string): (r: string)
    ensures fileType in FileTypeLabels ==> r == FileTypeLabels[fileType] && r != fileType
    ensures fileType !in FileTypeLabels ==> r == fileType
  {
    if fileType in FileTypeLabels then
      var l := FileTypeLabels[fileType];
      assert l[0] != fileType[0];
      l
    else fileType
  }

  const Placeholder := "[文件内容需单独解析]"

  /** `content || placeholder`: an absent or empty content shows the placeholder. */
  function ContentOrPlaceholder(content: Option<string>): string {
    if content.None? || content.value == "" then Placeholder else content.value
  }

  /** The section of the `i`-th material (counted from 0), numbered from 1. */
  function MaterialSection(i: nat, m: MaterialInput): string {
    "--- 文件 " + NatToString(i + 1) + ": " + m.originalName + " (" + TypeLabel(m.fileType) + ")\n"
      + ContentOrPlaceholder(m.content)
  }

  function Sections(ms: seq<MaterialInput>): seq<string> {
    seq(|ms|, i requires 0 <= i < |ms| => MaterialSection(i, ms[i]))
  }

  /** The material list of the prompt: the sections separated by blank lines. */
  function MaterialList(ms: seq<MaterialInput>): string {
    Join(Sections(ms), "\n\n")
  }

  /** A section ends with the material's content when it has some, else with the placeholder. */
  lemma SectionEndsWithContent(i: nat, m: MaterialInput)
    ensures m.content.Some? && m.content.value != "" ==> EndsWith(MaterialSection(i, m), m.content.value)
    ensures m.content.None? || m.content.value == "" ==> EndsWith(MaterialSection(i, m), Placeholder)
  {
    var head := "--- 文件 " + NatToString(i + 1) + ": " + m.originalName + " (" + TypeLabel(m.fileType) + ")\n";
    var body := ContentOrPlaceholder(m.content);
    assert MaterialSection(i, m) == head + body;
    assert (head + body)[|head + body| - |body|..] == body;
  }

  /** A further material adds its section, numbered after the others, at the end of the list. */
  lemma MaterialListSnoc(ms: seq<MaterialInput>, m: MaterialInput)
    requires |ms| > 0
    ensures MaterialList(ms + [m]) == MaterialList(ms) + "\n\n" + MaterialSection(|ms|, m)
  {
    assert Sections(ms + [m])[..|ms|] == Sections(ms);
  }

  lemma {:induction false} JoinHasPart(parts: seq<string>, sep: string, i: nat)
    requires i < |parts|
    ensures Contains(Join(parts, sep), parts[i])
    decreases |parts|
  {
    if |parts| == 1 {
      ContainsAt(parts[0], parts[0], 0);
    } else {
      var front := parts[..|parts| - 1];
      var last := parts[|parts| - 1];
      if i < |parts| - 1 {
        JoinHasPart(front, sep, i);
        ContainsInLeft(Join(front, sep), sep + last, parts[i]);
        assert Join(front, sep) + (sep + last) == Join(parts, sep);
      } else {
        ContainsAt(last, last, 0);
        ContainsInRight(Join(front, sep) + sep, last, last);
      }
    }
  }

  /** Every material has its section in the list. */
  lemma MaterialListShowsEveryMaterial(ms: seq<MaterialInput>, i: nat)
    requires i < |ms|
    ensures Contains(MaterialList(ms), MaterialSection(i, ms[i]))
  {
    JoinHasPart(Sections(ms), "\n\n", i);
  }

  const EmptyMaterialsError := "没有可提取的材料"

  /** The outcome of `parseAIResponse` on a reply; `parse` stands for `JSON.parse`, None when it throws. */
  function ParsedReply<T>(responseText: string, parse: string -> Option<T>): (r: Result<T, string>)
    ensures r.Err? ==> r.error == NoJsonError || r.error == ParseError
    ensures r.Err? && r.error == NoJsonError <==> '{' !in Unfenced(responseText) || '}' !in Unfenced(responseText)
    ensures r.Ok? ==> exists s :: BraceSlice(Unfenced(responseText)) == Ok(s) && parse(s) == Some(r.value)
  {
    match BraceSlice(Unfenced(responseText))
    case Err(e) => Err(e)
    case Ok(s) =>
      assert NoJsonError[0] != ParseError[0];
      match parse(s)
      case None => Err(ParseError)
      case Some(v) => Ok(v)
  }

  /** `parseAIResponse`: the text prepared as the field extractor prepares it, then parsed. */
  method ParseAIResponse<T>(responseText: string, parse: string -> Option<T>) returns (r: Result<T, string>)
    ensures r == ParsedReply(responseText, parse)
  {
    var jsonStr := PrepareJsonText(responseText);
    if jsonStr.Err? {
      return Err(jsonStr.error);
    }
    var result := parse(jsonStr.value);
    if result.None? {
      return Err(ParseError);
    }
    return Ok(result.value);
  }

  /**
   * `extractDeclaration`: an empty list fails before the model is asked; otherwise the
   * model's reply to the material list is parsed. `callModel` stands for the prompt's fixed
   * text around the list together with the request to the model.
   */
  method ExtractDeclaration<T>(materials: seq<MaterialInput>, callModel: string -> string, parse: string -> Option<T>)
    returns (r: Result<T, string>)
    ensures r == Err(EmptyMaterialsError) <==> |materials| == 0
    ensures |materials| > 0 ==> r == ParsedReply(callModel(MaterialList(materials)), parse)
  {
    if |materials| == 0 {
      return Err(EmptyMaterialsError);
    }
    var prompt := MaterialList(materials);
    var responseText := callModel(prompt);
    r := ParseAIResponse(responseText, parse);
    assert EmptyMaterialsError[0] != NoJsonError[0] && EmptyMaterialsError[0] != ParseError[0];
  }

  // ---- overall confidence ----

  /** The item records' confidences, record after record. */
  function Flatten(items: seq<seq<real>>): seq<real> {
    if |items| == 0 then [] else Flatten(items[..|items| - 1]) + items[|items| - 1]
  }

  /** The positive confidences, in order. */
  function Positive(cs: seq<real>): (ps: seq<real>)
    ensures |ps| <= |cs|
    ensures forall i :: 0 <= i < |ps| ==> ps[i] > 0.0
  {
    if |cs| == 0 then []
    else
      var front := Positive(cs[..|cs| - 1]);
      if cs[|cs| - 1] > 0.0 then front + [cs[|cs| - 1]] else front
  }

  function Sum(cs: seq<real>): real {
    if |cs| == 0 then 0.0 else Sum(cs[..|cs| - 1]) + cs[|cs| - 1]
  }

  /** The header's confidences, then the items'. */
  function AllConfidences(header: seq<real>, items: seq<seq<real>>): seq<real> {
    header + Flatten(items)
  }

  /**
   * `calculateOverallConfidence`, with each record's confidences in their key order: the
   * mean of the positive confidences, 0 when there are none.
   */
  function OverallConfidence(header: seq<real>, items: seq<seq<real>>): real {
    var cs := Positive(AllConfidences(header, items));
    if |cs| == 0 then 0.0 else Sum(cs) / (|cs| as real)
  }

  lemma {:induction false} PositiveAppend(a: seq<real>, b: seq<real>)
    ensures Positive(a + b) == Positive(a) + Positive(b)
    decreases |b|
  {
    if |b| == 0 {
      assert a + b == a;
    } else {
      assert (a + b)[..|a + b| - 1] == a + b[..|b| - 1];
      PositiveAppend(a, b[..|b| - 1]);
    }
  }

  lemma {:induction false} PositiveEmptyIffNone(cs: seq<real>)
    ensures Positive(cs) == [] <==> forall i :: 0 <= i < |cs| ==> cs[i] <= 0.0
    decreases |cs|
  {
    if |cs| > 0 {
      PositiveEmptyIffNone(cs[..|cs| - 1]);
      assert forall i :: 0 <= i < |cs| - 1 ==> cs[..|cs| - 1][i] == cs[i];
    }
  }

  lemma {:induction false} PositiveKeepsBound(cs: seq<real>, bound: real)
    requires forall i :: 0 <= i < |cs| ==> cs[i] <= bound
    ensures forall i :: 0 <= i < |Positive(cs)| ==> Positive(cs)[i] <= bound
    decreases |cs|
  {
    if |cs| > 0 {
      PositiveKeepsBound(cs[..|cs| - 1], bound);
    }
  }

  lemma {:induction false} SumBounds(cs: seq<real>)
    requires forall i :: 0 <= i < |cs| ==> 0.0 < cs[i] <= 1.0
    ensures 0.0 <= Sum(cs) <= |cs| as real
    ensures |cs| > 0 ==> Sum(cs) > 0.0
    decreases |cs|
  {
    if |cs| > 0 {
      SumBounds(cs[..|cs| - 1]);
    }
  }

  lemma {:induction false} SumPositive(cs: seq<real>)
    requires forall i :: 0 <= i < |cs| ==> cs[i] > 0.0
    ensures |cs| > 0 ==> Sum(cs) > 0.0
    decreases |cs|
  {
    if |cs| > 1 {
      SumPositive(cs[..|cs| - 1]);
    }
  }

  lemma QuotientPositive(s: real, n: real)
    requires s > 0.0 && n > 0.0
    ensures s / n > 0.0
  {
  }

  lemma QuotientWithinUnit(s: real, n: real)
    requires 0.0 <= s <= n && n > 0.0
    ensures 0.0 <= s / n <= 1.0
  {
    assert s / n * n == s;
  }

  /** The overall confidence is positive exactly when some confidence is. */
  lemma OverallPositiveIffSomeConfident(header: seq<real>, items: seq<seq<real>>)
    ensures OverallConfidence(header, items) > 0.0
      <==> exists i :: 0 <= i < |AllConfidences(header, items)| && AllConfidences(header, items)[i] > 0.0
  {
    var all := AllConfidences(header, items);
    var ps := Positive(all);
    PositiveEmptyIffNone(all);
    if |ps| > 0 {
      SumPositive(ps);
      QuotientPositive(Sum(ps), |ps| as real);
    }
  }

  /** Confidences within [0, 1] give an overall confidence within [0, 1]. */
  lemma OverallWithinUnit(header: seq<real>, items: seq<seq<real>>)
    requires forall i :: 0 <= i < |AllConfidences(header, items)| ==> AllConfidences(header, items)[i] <= 1.0
    ensures 0.0 <= OverallConfidence(header, items) <= 1.0
  {
    var all := AllConfidences(header, items);
    var ps := Positive(all);
    PositiveKeepsBound(all, 1.0);
    SumBounds(ps);
    if |ps| > 0 {
      QuotientWithinUnit(Sum(ps), |ps| as real);
    }
  }

  /** A confidence of 0 or below does not move the overall confidence. */
  lemma OverallIgnoresNonPositive(header: seq<real>, items: seq<seq<real>>, c: real)
    requires c <= 0.0
    ensures OverallConfidence(header + [c], items) == OverallConfidence(header, items)
  {
    assert AllConfidences(header + [c], items) == (header + [c]) + Flatten(items);
    PositiveAppend(header + [c], Flatten(items));
    PositiveAppend(header, [c]);
    PositiveAppend(header, Flatten(items));
    assert Positive([c]) == [];
  }
}

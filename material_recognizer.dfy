/**
 * Recognising the type of an uploaded document from its file name, and checking the
 * recognised types against the materials a business type requires.
 */
module MaterialRecognizer {
  import opened Wrappers
  import opened Strings
  import opened MaterialConfig

  datatype MaterialType =
    | BillOfLading | CommercialInvoice | PackingList | Contract
    | CustomsDeclaration | BondedNote | Certificate | Other

  /** The enum's string value. */
  function Code(t: MaterialType): (code: string)
    ensures code in MaterialTypeLabels
  {
    match t
    case BillOfLading => "BILL_OF_LADING"
    case CommercialInvoice => "COMMERCIAL_INVOICE"
    case PackingList => "PACKING_LIST"
    case Contract => "CONTRACT"
    case CustomsDeclaration => "CUSTOMS_DECLARATION"
    case BondedNote => "BONDED_NOTE"
    case Certificate => "CERTIFICATE"
    case Other => "OTHER"
  }

  /** Different types have different codes, and every code has its own label. */
  lemma CodesAreDistinct(s: MaterialType, t: MaterialType)
    ensures s != t ==> Code(s) != Code(t)
    ensures MaterialTypeLabel(Code(t)) != Code(t)
  {
  }

  predicate IsDigit(c: char) {
    '0' <= c <= '9'
  }

  /**
   * A case-insensitive file-name pattern: a literal anywhere in the name, or a literal
   * followed by at least one digit (`BL\d+`). A literal followed by `\d*` matches
   * exactly where the literal does, so `INV\d*` and `PL\d*` are literals here.
   */
  datatype Pattern = Literal(text: string) | WithDigits(prefix: string)

  predicate PatternMatches(p: Pattern, fileName: string) {
    match p
    case Literal(text) => Contains(Lower(fileName), Lower(text))
    case WithDigits(prefix) => exists i :: 0 <= i < |fileName| && DigitsAfterAt(fileName, prefix, i)
  }

  /** At position `i` the name holds `prefix`, in any letter case, followed by a digit. */
  predicate DigitsAfterAt(fileName: string, prefix: string, i: int) {
    0 <= i && i + |prefix| < |fileName|
    && Lower(fileName[i..i + |prefix|]) == Lower(prefix) && IsDigit(fileName[i + |prefix|])
  }

  predicate AnyPatternMatches(ps: seq<Pattern>, fileName: string) {
    exists p :: p in ps && PatternMatches(p, fileName)
  }

  /** `FILENAME_PATTERNS`, in its key order. */
  const FilenamePatterns: seq<(MaterialType, seq<Pattern>)> := [
    (BillOfLading, [Literal("提单"), Literal("Bill of Lading"), Literal(".BL."), Literal("B/L"), WithDigits("BL")]),
    (CommercialInvoice, [Literal("发票"), Literal("Invoice"), Literal("Commercial Invoice"), Literal("INV")]),
    (PackingList, [Literal("箱单"), Literal("装箱单"), Literal("Packing List"), Literal("PL"), Literal("Packlist")]),
    (Contract, [Literal("合同"), Literal("Contract"), Literal("Sales Contract"), Literal("Purchase Contract")]),
    (CustomsDeclaration, [Literal("报关单"), Literal("Customs Declaration"), Literal("Declaration")]),
    (BondedNote, [Literal("核注清单"), Literal("Bonded Note"), Literal("核注")]),
    (Certificate, [Literal("原产地证"), Literal("Certificate"), Literal("CO"), Literal("Origin")]),
    (Other, [])
  ]

  /** The `i`-th entry is tried, and its patterns match the name. */
  predicate RuleFires(i: int, fileName: string)
    requires 0 <= i < |FilenamePatterns|
  {
    FilenamePatterns[i].0 != Other && AnyPatternMatches(FilenamePatterns[i].1, fileName)
  }

  /** `recognizeByFilenameRule`: the first type, in table order, one of whose patterns matches. */
  method RecognizeByFilenameRule(fileName: string) returns (r: Option<MaterialType>)
    ensures r.None? <==> forall i :: 0 <= i < |FilenamePatterns| ==> !RuleFires(i, fileName)
    ensures r.Some? ==> r.value != Other
    ensures r.Some? ==> exists i :: (0 <= i < |FilenamePatterns| && FilenamePatterns[i].0 == r.value
      && RuleFires(i, fileName) && forall j :: 0 <= j < i ==> !RuleFires(j, fileName))
  {
    var i := 0;
    while i < |FilenamePatterns|
      invariant 0 <= i <= |FilenamePatterns|
      invariant forall j :: 0 <= j < i ==> !RuleFires(j, fileName)
    {
      var (kind, patterns) := FilenamePatterns[i];
      if kind != Other {
        var k := 0;
        while k < |patterns|
          invariant 0 <= k <= |patterns|
          invariant forall m :: 0 <= m < k ==> !PatternMatches(patterns[m], fileName)
        {
          if PatternMatches(patterns[k], fileName) {
            assert patterns[k] in patterns;
            assert RuleFires(i, fileName);
            return Some(kind);
          }
          k := k + 1;
        }
      }
      i := i + 1;
    }
    return None;
  }

  datatype RecognitionMethod = FilenameRule | AiVision | Manual

  datatype Recognition = Recognition(kind: MaterialType, via: RecognitionMethod, confidence: real)

  /**
   * `recognizeMaterialType`. With no rule match and a file buffer, the vision step runs;
   * it is a stub in the source that always answers OTHER with confidence 0.
   */
  method RecognizeMaterialType(fileName: string, hasBuffer: bool) returns (r: Recognition)
    ensures r.via == FilenameRule <==> exists i :: 0 <= i < |FilenamePatterns| && RuleFires(i, fileName)
    ensures r.via == FilenameRule ==> r.confidence == 1.0 && r.kind != Other
    ensures r.via != FilenameRule ==> r.kind == Other && r.confidence == 0.0
    ensures r.via == Manual <==> !hasBuffer && forall i :: 0 <= i < |FilenamePatterns| ==> !RuleFires(i, fileName)
  {
    var rule := RecognizeByFilenameRule(fileName);
    if rule.Some? {
      return Recognition(rule.value, FilenameRule, 1.0);
    }
    if hasBuffer {
      return Recognition(Other, AiVision, 0.0);
    }
    return Recognition(Other, Manual, 0.0);
  }

  // ---- checking recognised types against the required materials ----

  function Codes(ts: seq<MaterialType>): (cs: seq<string>)
    ensures |cs| == |ts| && forall i :: 0 <= i < |ts| ==> cs[i] == Code(ts[i])
  {
    seq(|ts|, i requires 0 <= i < |ts| => Code(ts[i]))
  }

  /** `counts[t] || 0` */
  function CountOf(counts: map<string, nat>, code: string): nat {
    if code in counts then counts[code] else 0
  }

  /** A required item is satisfied when it asks for no minimum or has at least that many copies. */
  predicate Satisfied(item: MaterialRequirement, counts: map<string, nat>) {
    item.minCount.None? || CountOf(counts, item.kind) >= item.minCount.value
  }

  function MissingLine(item: MaterialRequirement, count: nat): string
    requires item.minCount.Some?
  {
    item.name + " (需要" + NatToString(item.minCount.value) + "份，当前" + NatToString(count) + "份)"
  }

  /** The lines of `missing`: one per unsatisfied required item, in list order. */
  function MissingLines(required: seq<MaterialRequirement>, counts: map<string, nat>): (lines: seq<string>)
    ensures |lines| <= |required|
  {
    if |required| == 0 then []
    else
      var front := MissingLines(required[..|required| - 1], counts);
      var item := required[|required| - 1];
      if Satisfied(item, counts) then front else front + [MissingLine(item, CountOf(counts, item.kind))]
  }

  /** Nothing is missing exactly when every required item is satisfied. */
  lemma {:induction false} NothingMissingIffSatisfied(required: seq<MaterialRequirement>, counts: map<string, nat>)
    ensures MissingLines(required, counts) == [] <==> forall i :: 0 <= i < |required| ==> Satisfied(required[i], counts)
    decreases |required|
  {
    if |required| > 0 {
      NothingMissingIffSatisfied(required[..|required| - 1], counts);
      assert forall i :: 0 <= i < |required| - 1 ==> required[..|required| - 1][i] == required[i];
    }
  }

  /** Each unsatisfied required item contributes a line naming it. */
  lemma {:induction false} UnsatisfiedIsListed(required: seq<MaterialRequirement>, counts: map<string, nat>, i: nat)
    requires i < |required| && !Satisfied(required[i], counts)
    ensures MissingLine(required[i], CountOf(counts, required[i].kind)) in MissingLines(required, counts)
    decreases |required|
  {
    if i < |required| - 1 {
      assert required[..|required| - 1][i] == required[i];
      UnsatisfiedIsListed(required[..|required| - 1], counts, i);
    }
  }

  datatype MaterialCheck = MaterialCheck(valid: bool, missing: seq<string>, counts: map<string, nat>)

  /**
   * `validateRequiredMaterials`: counts the recognised types, then lists the required
   * items with too few copies. Optional materials play no part.
   */
  method ValidateRequiredMaterials(recognizedTypes: seq<MaterialType>, materials: BusinessTypeMaterials)
    returns (r: MaterialCheck)
    ensures forall c :: c in r.counts <==> c in Codes(recognizedTypes)
    ensures forall c :: c in r.counts ==> r.counts[c] == multiset(Codes(recognizedTypes))[c]
    ensures r.missing == MissingLines(materials.required, r.counts)
    ensures r.valid <==> forall i :: 0 <= i < |materials.required| ==> Satisfied(materials.required[i], r.counts)
  {
    var counts: map<string, nat> := map[];
    var i := 0;
    while i < |recognizedTypes|
      invariant 0 <= i <= |recognizedTypes|
      invariant forall c :: c in counts <==> c in Codes(recognizedTypes[..i])
      invariant forall c :: c in counts ==> counts[c] == multiset(Codes(recognizedTypes[..i]))[c]
    {
      var code := Code(recognizedTypes[i]);
      counts := counts[code := CountOf(counts, code) + 1];
      assert Codes(recognizedTypes[..i + 1]) == Codes(recognizedTypes[..i]) + [code];
      i := i + 1;
    }
    assert recognizedTypes[..i] == recognizedTypes;
    var missing: seq<string> := [];
    var k := 0;
    while k < |materials.required|
      invariant 0 <= k <= |materials.required|
      invariant missing == MissingLines(materials.required[..k], counts)
    {
      var item := materials.required[k];
      assert materials.required[..k + 1][..k] == materials.required[..k];
      if item.minCount.Some? && CountOf(counts, item.kind) < item.minCount.value {
        missing := missing + [MissingLine(item, CountOf(counts, item.kind))];
      }
      k := k + 1;
    }
    assert materials.required[..k] == materials.required;
    NothingMissingIffSatisfied(materials.required, counts);
    r := MaterialCheck(|missing| == 0, missing, counts);
  }
}

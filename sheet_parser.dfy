/**
 * Sheet classification: a sheet's name and rows are mapped to the role the sheet plays
 * (enterprise registry, customer list, invoice, packing list, customs manifest) with a
 * confidence, and a file gets a priority score from its classified sheets.
 */
module SheetParser {
  import opened Strings
  import opened Cells

  datatype SheetType = Enterprise | Customer | Invoice | Packing | Declaration | Unknown

  datatype SheetClassification = SheetClassification(
    sheetType: SheetType,
    confidence: real,
    sheetName: string,
    dataRows: nat)

  datatype ParsedExcelFile = ParsedExcelFile(
    fileName: string,
    sheets: seq<SheetClassification>,
    priority: nat)

  /** Number of rows scanned for header keywords. */
  const HeaderScanRows: nat := 20

  function Min(a: int, b: int): int { if a <= b then a else b }

  /** Rows holding at least one cell that is not null, '' or undefined. */
  function DataRowCount(rows: seq<Row>): (n: nat)
    ensures n <= |rows|
  {
    if |rows| == 0 then 0
    else DataRowCount(rows[..|rows| - 1]) + (if HasContent(rows[|rows| - 1]) then 1 else 0)
  }

  /** The indices of the rows with content. */
  function ContentRows(rows: seq<Row>): set<nat> {
    set i: nat | i < |rows| && HasContent(rows[i])
  }

  /** The data-row count is exactly the number of rows with content. */
  lemma {:induction false} DataRowCountIsContentRows(rows: seq<Row>)
    ensures DataRowCount(rows) == |ContentRows(rows)|
  {
    if |rows| > 0 {
      var n := |rows| - 1;
      var front := rows[..n];
      DataRowCountIsContentRows(front);
      assert ContentRows(rows) == ContentRows(front) + (if HasContent(rows[n]) then {n} else {});
      assert n !in ContentRows(front);
    } else {
      assert ContentRows(rows) == {};
    }
  }

  /** The first 20 rows, flattened, '|'-joined and lower-cased. */
  function HeaderText(nt: NumberText, rows: seq<Row>): string {
    Lower(JoinRow(nt, Flatten(rows[..Min(HeaderScanRows, |rows|)]), "|"))
  }

  predicate IsExactName(sheetName: string) {
    sheetName == "企业" || sheetName == "客户供应商" || sheetName == "核注清单"
  }

  /** True when one of the five sheet-name rules decides the type. */
  predicate NameRuleFires(sheetName: string) {
    IsExactName(sheetName) || Contains(sheetName, "发票") || Contains(sheetName, "装箱")
  }

  /** A content rule: the type it gives, its keywords, whether all of them or any one must appear, and its confidence. */
  datatype ContentRule = ContentRule(sheetType: SheetType, keywords: seq<string>, needsAll: bool, confidence: real)

  /** The header rules in the order they are tried. */
  const ContentRules: seq<ContentRule> := [
    ContentRule(Enterprise, ["加工单位编码", "加工单位名称"], false, 0.8),
    ContentRule(Customer, ["单位代码", "单位名称"], true, 0.8),
    ContentRule(Declaration, ["监管方式", "备案编号"], true, 0.8),
    ContentRule(Invoice, ["hs编码", "总价"], true, 0.7),
    ContentRule(Packing, ["净重", "毛重"], true, 0.7)
  ]

  predicate RuleFires(rule: ContentRule, text: string) {
    if rule.needsAll then forall w :: w in rule.keywords ==> Contains(text, w)
    else exists w :: w in rule.keywords && Contains(text, w)
  }

  /** The index of the first rule that fires on the header text, if any. */
  function FirstFiringRule(rules: seq<ContentRule>, text: string): (k: int)
    ensures -1 <= k < |rules|
    ensures k >= 0 ==> RuleFires(rules[k], text) && forall j :: 0 <= j < k ==> !RuleFires(rules[j], text)
    ensures k == -1 ==> forall j :: 0 <= j < |rules| ==> !RuleFires(rules[j], text)
  {
    if |rules| == 0 then -1
    else if RuleFires(rules[0], text) then 0
    else
      var k := FirstFiringRule(rules[1..], text);
      if k == -1 then -1 else k + 1
  }

  function ClassifySheet(nt: NumberText, sheetName: string, rows: seq<Row>): (c: SheetClassification)
    ensures c.sheetName == sheetName && c.dataRows == DataRowCount(rows)
    ensures c.confidence in {1.0, 0.9, 0.8, 0.7, 0.0}
    ensures c.sheetType == Unknown <==> c.confidence == 0.0
    ensures c.confidence == 1.0 <==> IsExactName(sheetName)
    ensures c.confidence == 0.9 <==> !IsExactName(sheetName) && NameRuleFires(sheetName)
    ensures !IsExactName(sheetName) && Contains(sheetName, "发票") ==> c.sheetType == Invoice
    ensures !IsExactName(sheetName) && !Contains(sheetName, "发票") && Contains(sheetName, "装箱") ==> c.sheetType == Packing
  {
    var n := DataRowCount(rows);
    if sheetName == "企业" then SheetClassification(Enterprise, 1.0, sheetName, n)
    else if sheetName == "客户供应商" then SheetClassification(Customer, 1.0, sheetName, n)
    else if sheetName == "核注清单" then SheetClassification(Declaration, 1.0, sheetName, n)
    else if Contains(sheetName, "发票") then SheetClassification(Invoice, 0.9, sheetName, n)
    else if Contains(sheetName, "装箱") then SheetClassification(Packing, 0.9, sheetName, n)
    else
      var h := HeaderText(nt, rows);
      if Contains(h, "加工单位编码") || Contains(h, "加工单位名称") then
        SheetClassification(Enterprise, 0.8, sheetName, n)
      else if Contains(h, "单位代码") && Contains(h, "单位名称") then
        SheetClassification(Customer, 0.8, sheetName, n)
      else if Contains(h, "监管方式") && Contains(h, "备案编号") then
        SheetClassification(Declaration, 0.8, sheetName, n)
      else if Contains(h, "hs编码") && Contains(h, "总价") then
        SheetClassification(Invoice, 0.7, sheetName, n)
      else if Contains(h, "净重") && Contains(h, "毛重") then
        SheetClassification(Packing, 0.7, sheetName, n)
      else SheetClassification(Unknown, 0.0, sheetName, n)
  }

  /** The three exact sheet names decide the type with confidence 1.0 whatever the rows hold. */
  lemma ExactNamesIgnoreContent(nt: NumberText, rows: seq<Row>)
    ensures ClassifySheet(nt, "企业", rows).sheetType == Enterprise
    ensures ClassifySheet(nt, "客户供应商", rows).sheetType == Customer
    ensures ClassifySheet(nt, "核注清单", rows).sheetType == Declaration
  {
  }

  /** An invoice token in the name wins over a packing token. */
  lemma InvoiceNameBeforePacking(nt: NumberText, sheetName: string, rows: seq<Row>)
    requires !IsExactName(sheetName) && Contains(sheetName, "发票")
    ensures ClassifySheet(nt, sheetName, rows).sheetType == Invoice
  {
  }

  /** Content rules see only the first 20 rows: rows past the 20th never change the type. */
  lemma ContentRulesReadFirst20Rows(nt: NumberText, sheetName: string, rows: seq<Row>, more: seq<Row>)
    requires |rows| >= HeaderScanRows
    ensures ClassifySheet(nt, sheetName, rows + more).sheetType == ClassifySheet(nt, sheetName, rows).sheetType
    ensures ClassifySheet(nt, sheetName, rows + more).confidence == ClassifySheet(nt, sheetName, rows).confidence
  {
    assert (rows + more)[..HeaderScanRows] == rows[..HeaderScanRows];
  }

  /** Enterprise detection from content needs only one of its two keywords. */
  lemma EnterpriseContentNeedsOneKeyword(nt: NumberText, sheetName: string, rows: seq<Row>)
    requires !NameRuleFires(sheetName)
    requires Contains(HeaderText(nt, rows), "加工单位编码") || Contains(HeaderText(nt, rows), "加工单位名称")
    ensures ClassifySheet(nt, sheetName, rows).sheetType == Enterprise
    ensures ClassifySheet(nt, sheetName, rows).confidence == 0.8
  {
  }

  lemma AnyOfTwo(text: string, a: string, b: string, rule: ContentRule)
    requires rule.keywords == [a, b] && !rule.needsAll
    ensures RuleFires(rule, text) <==> Contains(text, a) || Contains(text, b)
  {
    if Contains(text, a) {
      assert a in rule.keywords;
    } else if Contains(text, b) {
      assert b in rule.keywords;
    }
  }

  lemma AllOfTwo(text: string, a: string, b: string, rule: ContentRule)
    requires rule.keywords == [a, b] && rule.needsAll
    ensures RuleFires(rule, text) <==> Contains(text, a) && Contains(text, b)
  {
    if !Contains(text, a) {
      assert a in rule.keywords;
    } else if !Contains(text, b) {
      assert b in rule.keywords;
    }
  }

  /** Each content rule, read as "all of" or "any of" its two keywords. */
  lemma ContentRulesRead(text: string)
    ensures RuleFires(ContentRules[0], text) <==> Contains(text, "加工单位编码") || Contains(text, "加工单位名称")
    ensures RuleFires(ContentRules[1], text) <==> Contains(text, "单位代码") && Contains(text, "单位名称")
    ensures RuleFires(ContentRules[2], text) <==> Contains(text, "监管方式") && Contains(text, "备案编号")
    ensures RuleFires(ContentRules[3], text) <==> Contains(text, "hs编码") && Contains(text, "总价")
    ensures RuleFires(ContentRules[4], text) <==> Contains(text, "净重") && Contains(text, "毛重")
  {
    AnyOfTwo(text, "加工单位编码", "加工单位名称", ContentRules[0]);
    AllOfTwo(text, "单位代码", "单位名称", ContentRules[1]);
    AllOfTwo(text, "监管方式", "备案编号", ContentRules[2]);
    AllOfTwo(text, "hs编码", "总价", ContentRules[3]);
    AllOfTwo(text, "净重", "毛重", ContentRules[4]);
  }

  /**
   * Without a name rule, the sheet gets the type and confidence of the first content rule
   * that fires on the first 20 rows, in table order; Unknown with 0 when none fires.
   */
  lemma ClassifyByFirstContentRule(nt: NumberText, sheetName: string, rows: seq<Row>)
    requires !NameRuleFires(sheetName)
    ensures var k := FirstFiringRule(ContentRules, HeaderText(nt, rows));
      var c := ClassifySheet(nt, sheetName, rows);
      && (k >= 0 ==> c.sheetType == ContentRules[k].sheetType && c.confidence == ContentRules[k].confidence)
      && (k == -1 ==> c.sheetType == Unknown && c.confidence == 0.0)
  {
    var h := HeaderText(nt, rows);
    ContentRulesRead(h);
    var k := FirstFiringRule(ContentRules, h);
    if k >= 0 {
      forall j | 0 <= j < k
        ensures !RuleFires(ContentRules[j], h)
      {
      }
    }
  }

  /** A sheet with no rows and no name rule is unknown. */
  lemma EmptySheetIsUnknown(nt: NumberText, sheetName: string)
    requires !NameRuleFires(sheetName)
    ensures ClassifySheet(nt, sheetName, []).sheetType == Unknown
    ensures ClassifySheet(nt, sheetName, []).dataRows == 0
  {
    assert HeaderText(nt, []) == "";
    assert !Contains("", "加工单位编码") && !Contains("", "加工单位名称");
    assert !Contains("", "单位代码") && !Contains("", "监管方式");
    assert !Contains("", "hs编码") && !Contains("", "净重");
  }

  // ---- sheet-based file priority ----

  function TotalDataRows(sheets: seq<SheetClassification>): nat {
    if |sheets| == 0 then 0 else TotalDataRows(sheets[..|sheets| - 1]) + sheets[|sheets| - 1].dataRows
  }

  function IdentifiedCount(sheets: seq<SheetClassification>): (n: nat)
    ensures n <= |sheets|
  {
    if |sheets| == 0 then 0
    else IdentifiedCount(sheets[..|sheets| - 1]) + (if sheets[|sheets| - 1].sheetType != Unknown then 1 else 0)
  }

  predicate HasDeclarationSheet(sheets: seq<SheetClassification>) {
    exists s :: s in sheets && s.sheetType == Declaration
  }

  /** 100 for a manifest sheet, 10 per identified sheet, 1 per full hundred data rows. */
  function SheetPriority(sheets: seq<SheetClassification>): (score: nat)
    ensures |sheets| == 0 ==> score == 0
    ensures HasDeclarationSheet(sheets) ==> score >= 100
    ensures score >= 10 * IdentifiedCount(sheets)
  {
    (if HasDeclarationSheet(sheets) then 100 else 0) + 10 * IdentifiedCount(sheets) + TotalDataRows(sheets) / 100
  }

  lemma {:induction false} TotalDataRowsUpdate(sheets: seq<SheetClassification>, i: nat, more: nat)
    requires i < |sheets| && more >= sheets[i].dataRows
    ensures TotalDataRows(sheets[i := sheets[i].(dataRows := more)]) == TotalDataRows(sheets) + (more - sheets[i].dataRows)
    ensures IdentifiedCount(sheets[i := sheets[i].(dataRows := more)]) == IdentifiedCount(sheets)
  {
    var n := |sheets| - 1;
    var up := sheets[i := sheets[i].(dataRows := more)];
    if i < n {
      assert up[..n] == sheets[..n][i := sheets[i].(dataRows := more)];
      TotalDataRowsUpdate(sheets[..n], i, more);
    } else {
      assert up[..n] == sheets[..n];
    }
  }

  /** Giving any sheet more data rows never lowers the file's priority. */
  lemma PriorityMonotoneInDataRows(sheets: seq<SheetClassification>, i: nat, more: nat)
    requires i < |sheets| && more >= sheets[i].dataRows
    ensures SheetPriority(sheets[i := sheets[i].(dataRows := more)]) >= SheetPriority(sheets)
  {
    var up := sheets[i := sheets[i].(dataRows := more)];
    TotalDataRowsUpdate(sheets, i, more);
    if HasDeclarationSheet(sheets) {
      var s :| s in sheets && s.sheetType == Declaration;
      var k :| 0 <= k < |sheets| && sheets[k] == s;
      assert up[k].sheetType == Declaration;
      assert up[k] in up;
    }
  }

  /** `parseExcelFile` over sheets already read as (name, rows) pairs. */
  function ParseExcelFile(nt: NumberText, fileName: string, sheets: seq<(string, seq<Row>)>): (f: ParsedExcelFile)
    ensures f.fileName == fileName && |f.sheets| == |sheets|
    ensures forall i :: 0 <= i < |sheets| ==> f.sheets[i] == ClassifySheet(nt, sheets[i].0, sheets[i].1)
    ensures f.priority == SheetPriority(f.sheets)
  {
    var cs := seq(|sheets|, i requires 0 <= i < |sheets| => ClassifySheet(nt, sheets[i].0, sheets[i].1));
    ParsedExcelFile(fileName, cs, SheetPriority(cs))
  }
}

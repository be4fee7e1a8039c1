/**
 * Field extraction: locates the header row of a classified sheet, resolves columns through
 * an alias table, and pulls out an enterprise record, customer records, a manifest record
 * or goods lines; then folds the extraction over all sheets of one file.
 */
module Extractor {
  import opened Wrappers
  import opened Strings
  import opened Cells
  import opened SheetParser

  datatype EnterpriseInfo = EnterpriseInfo(
    name: string,
    customsCode: string,
    socialCreditCode: string,
    legalPerson: Option<string>,
    phone: Option<string>)

  datatype CustomerInfo = CustomerInfo(
    name: string,
    customsCode: string,
    socialCreditCode: Option<string>,
    englishName: Option<string>)

  datatype DeclarationInfo = DeclarationInfo(
    supervisionMode: string,
    recordNumber: string,
    importExportFlag: string,
    entryDate: Option<string>,
    operatingUnitName: Option<string>,
    operatingUnitCode: Option<string>)

  datatype GoodsItem = GoodsItem(
    goodsName: string,
    hsCode: string,
    quantity: Option<real>,
    unit: Option<string>,
    unitPrice: Option<real>,
    totalPrice: Option<real>,
    currency: Option<string>,
    origin: Option<string>,
    netWeight: Option<real>,
    grossWeight: Option<real>,
    itemCode: Option<string>,
    matchKey: string)

  datatype ExtractedData = ExtractedData(
    enterprise: Option<EnterpriseInfo>,
    customers: Option<seq<CustomerInfo>>,
    declaration: Option<DeclarationInfo>,
    goods: Option<seq<GoodsItem>>,
    totalRows: nat)

  // ---- the alias table ----

  const HsCodeAliases: seq<string> := ["HS编码", "商品HS编码", "商品编码", "HS CODE"]
  const GoodsNameAliases: seq<string> := ["商品名称", "品名", "货物名称", "DESCRIPTION", "Description&Specification"]
  const TotalPriceAliases: seq<string> := ["总价", "总金额", "AMOUNT", "金额", "Amount"]
  const OriginAliases: seq<string> := ["原产国", "原产地", "产地", "ORIGIN", "原产国/地区"]
  const QuantityAliases: seq<string> := ["数量", "数  量", "QTY", "Qty"]
  const UnitAliases: seq<string> := ["单位", "UNIT", "Unit"]
  const UnitPriceAliases: seq<string> := ["单价", "UNIT PRICE", "Unit Price"]
  const NetWeightAliases: seq<string> := ["净重", "净重（千克）", "N/W", "N/W(KG)"]
  const GrossWeightAliases: seq<string> := ["毛重", "毛重（千克）", "G/W", "G/W(KG)"]
  const ItemCodeAliases: seq<string> := ["货号", "料号", "企业料号", "金二料号", "合捷货号"]

  const EnterpriseKeywords: seq<string> := ["加工单位名称", "加工单位编码"]
  const CustomerKeywords: seq<string> := ["单位名称", "单位代码"]
  const DeclarationKeywords: seq<string> := ["监管方式", "备案编号"]
  const GoodsKeywords: seq<string> := ["HS编码", "商品名称"]

  const EnterpriseNameAliases: seq<string> := ["加工单位名称", "单位名称", "企业名称"]
  const EnterpriseCodeAliases: seq<string> := ["加工单位编码", "单位编码", "海关编码"]
  const EnterpriseCreditAliases: seq<string> := ["加工单位三证合一代码", "三证合一代码", "统一社会信用代码"]
  const EnterpriseLegalAliases: seq<string> := ["加工单位法人代表", "法人代表", "法人"]
  const EnterprisePhoneAliases: seq<string> := ["加工单位联系电话", "联系电话", "电话"]
  const CustomerNameAliases: seq<string> := ["单位名称", "客户名称", "供应商名称"]
  const CustomerCodeAliases: seq<string> := ["单位代码", "客户代码", "海关编码"]
  const CustomerCreditAliases: seq<string> := ["三证合一代码", "统一社会信用代码"]
  const CustomerEnglishAliases: seq<string> := ["单位英文名", "英文名称", "English Name"]
  const ModeAliases: seq<string> := ["监管方式", "贸易方式"]
  const RecordAliases: seq<string> := ["备案编号", "账册编号"]
  const FlagAliases: seq<string> := ["进出口标志", "进出口"]
  const DateAliases: seq<string> := ["录入日期", "日期", "申报日期"]
  const UnitNameAliases: seq<string> := ["经营单位名称", "经营单位"]
  const UnitCodeAliases: seq<string> := ["经营单位代码"]

  // ---- header row ----

  /** How many of the keywords the (lower-cased) row text contains. */
  function MatchCount(text: string, keywords: seq<string>): (n: nat)
    ensures n <= |keywords|
  {
    if |keywords| == 0 then 0
    else MatchCount(text, keywords[..|keywords| - 1])
         + (if Contains(text, Lower(keywords[|keywords| - 1])) then 1 else 0)
  }

  /** The row's '|'-joined lower-cased text holds at least half of the keywords, rounded up. */
  predicate IsHeaderRow(nt: NumberText, row: Row, keywords: seq<string>) {
    MatchCount(Lower(JoinRow(nt, row, "|")), keywords) >= (|keywords| + 1) / 2
  }

  function SearchLimit(rows: seq<Row>): (n: nat)
    ensures n <= |rows| && n <= HeaderScanRows
  {
    Min(HeaderScanRows, |rows|)
  }

  /** The first header row at index `i` or later within the search window, -1 when none. */
  function FirstHeaderFrom(nt: NumberText, rows: seq<Row>, keywords: seq<string>, i: nat): (k: int)
    requires i <= SearchLimit(rows)
    ensures k == -1 || i <= k < SearchLimit(rows)
    ensures k >= 0 ==> IsHeaderRow(nt, rows[k], keywords)
    ensures k >= 0 ==> forall j :: i <= j < k ==> !IsHeaderRow(nt, rows[j], keywords)
    ensures k == -1 ==> forall j :: i <= j < SearchLimit(rows) ==> !IsHeaderRow(nt, rows[j], keywords)
    decreases SearchLimit(rows) - i
  {
    if i == SearchLimit(rows) then -1
    else if IsHeaderRow(nt, rows[i], keywords) then i
    else FirstHeaderFrom(nt, rows, keywords, i + 1)
  }

  /** `findHeaderRow`: the first header row among the first 20 rows; 0 doubles as "none found". */
  function HeaderRow(nt: NumberText, rows: seq<Row>, keywords: seq<string>): (h: nat)
    ensures h == 0 || h < SearchLimit(rows)
    ensures h > 0 ==> (IsHeaderRow(nt, rows[h], keywords)
      && forall j :: 0 <= j < h ==> !IsHeaderRow(nt, rows[j], keywords))
    ensures (forall j :: 0 <= j < SearchLimit(rows) ==> !IsHeaderRow(nt, rows[j], keywords)) ==> h == 0
    ensures forall k :: (0 < k < SearchLimit(rows) && IsHeaderRow(nt, rows[k], keywords)
      && forall j :: 0 <= j < k ==> !IsHeaderRow(nt, rows[j], keywords)) ==> h == k
  {
    var k := FirstHeaderFrom(nt, rows, keywords, 0);
    if k < 0 then 0 else k
  }

  /** The loop of `findHeaderRow`. */
  method FindHeaderRow(nt: NumberText, rows: seq<Row>, keywords: seq<string>) returns (h: nat)
    ensures h == HeaderRow(nt, rows, keywords)
  {
    var limit := Min(HeaderScanRows, |rows|);
    var i := 0;
    while i < limit
      invariant 0 <= i <= limit
      invariant FirstHeaderFrom(nt, rows, keywords, i) == FirstHeaderFrom(nt, rows, keywords, 0)
    {
      var rowText := Lower(JoinRow(nt, rows[i], "|"));
      var matchCount := MatchCount(rowText, keywords);
      if matchCount >= (|keywords| + 1) / 2 {
        return i;
      }
      i := i + 1;
    }
    return 0;
  }

  // ---- column resolution ----

  /** `String(h || '').toLowerCase().trim()` */
  function NormalizeHeader(nt: NumberText, c: Cell): string {
    Trim(Lower(Text(nt, c)))
  }

  function NormalizeAlias(a: string): string {
    Trim(Lower(a))
  }

  /** The header contains an alias or is contained in one. */
  predicate AliasMatches(header: string, aliases: seq<string>) {
    |aliases| > 0 && (
      || Contains(header, NormalizeAlias(aliases[0]))
      || Contains(NormalizeAlias(aliases[0]), header)
      || AliasMatches(header, aliases[1..]))
  }

  /** The header cell, lower-cased and trimmed, matches one of the aliases. */
  predicate HeaderMatches(nt: NumberText, header: Cell, aliases: seq<string>) {
    AliasMatches(NormalizeHeader(nt, header), aliases)
  }

  function ColumnIndexFrom(nt: NumberText, headers: Row, aliases: seq<string>, i: nat): (k: int)
    requires i <= |headers|
    ensures k == -1 || i <= k < |headers|
    decreases |headers| - i
  {
    if i == |headers| then -1
    else if HeaderMatches(nt, headers[i], aliases) then i
    else ColumnIndexFrom(nt, headers, aliases, i + 1)
  }

  /** `findColumnIndex`: the first matching column, -1 when none. */
  function ColumnIndex(nt: NumberText, headers: Row, aliases: seq<string>): (k: int)
    ensures -1 <= k < |headers|
  {
    ColumnIndexFrom(nt, headers, aliases, 0)
  }

  lemma {:induction false} ColumnIndexFromIsFirstMatch(nt: NumberText, headers: Row, aliases: seq<string>, i: nat)
    requires i <= |headers|
    ensures ColumnIndexFrom(nt, headers, aliases, i) >= 0 ==>
      HeaderMatches(nt, headers[ColumnIndexFrom(nt, headers, aliases, i)], aliases)
    ensures forall j :: i <= j < |headers| && (ColumnIndexFrom(nt, headers, aliases, i) == -1 || j < ColumnIndexFrom(nt, headers, aliases, i)) ==>
      !HeaderMatches(nt, headers[j], aliases)
    decreases |headers| - i
  {
    if i < |headers| && !HeaderMatches(nt, headers[i], aliases) {
      var k := ColumnIndexFrom(nt, headers, aliases, i + 1);
      assert ColumnIndexFrom(nt, headers, aliases, i) == k;
      ColumnIndexFromIsFirstMatch(nt, headers, aliases, i + 1);
      forall j | i <= j < |headers| && (k == -1 || j < k)
        ensures !HeaderMatches(nt, headers[j], aliases)
      {
        if j > i {
          assert i + 1 <= j;
        }
      }
    }
  }

  /** The resolved column is the first header matching an alias; -1 exactly when no header matches. */
  lemma ColumnIndexIsFirstMatch(nt: NumberText, headers: Row, aliases: seq<string>)
    ensures var k := ColumnIndex(nt, headers, aliases);
      && (k >= 0 ==> HeaderMatches(nt, headers[k], aliases))
      && (k >= 0 ==> forall j :: 0 <= j < k ==> !HeaderMatches(nt, headers[j], aliases))
      && (k == -1 <==> forall j :: 0 <= j < |headers| ==> !HeaderMatches(nt, headers[j], aliases))
  {
    ColumnIndexFromIsFirstMatch(nt, headers, aliases, 0);
  }

  /** The loop of `findColumnIndex`. */
  method FindColumnIndex(nt: NumberText, headers: Row, aliases: seq<string>) returns (k: int)
    ensures k == ColumnIndex(nt, headers, aliases)
  {
    var i := 0;
    while i < |headers|
      invariant 0 <= i <= |headers|
      invariant ColumnIndexFrom(nt, headers, aliases, i) == ColumnIndex(nt, headers, aliases)
    {
      var header := NormalizeHeader(nt, headers[i]);
      if AliasMatches(header, aliases) {
        return i;
      }
      i := i + 1;
    }
    return -1;
  }

  /** A blank header cell is contained in every alias, so it captures any field not found before it. */
  lemma BlankHeaderMatchesEveryAlias(nt: NumberText, headers: Row, aliases: seq<string>, i: nat)
    requires i < |headers| && NormalizeHeader(nt, headers[i]) == "" && |aliases| > 0
    ensures 0 <= ColumnIndex(nt, headers, aliases) <= i
  {
    ContainsEmpty(NormalizeAlias(aliases[0]));
    assert HeaderMatches(nt, headers[i], aliases);
    ColumnIndexIsFirstMatch(nt, headers, aliases);
  }

  // ---- cell access with the source's fallbacks ----

  /** `idx >= 0 ? String(row[idx] || '') : ''` */
  function TextAt(nt: NumberText, row: Row, idx: int): string {
    if idx >= 0 then Text(nt, CellAt(row, idx)) else ""
  }

  /** `idx >= 0 ? String(row[idx] || '').trim() : ''` */
  function TrimmedAt(nt: NumberText, row: Row, idx: int): string {
    if idx >= 0 then Trim(Text(nt, CellAt(row, idx))) else ""
  }

  /** `idx >= 0 ? String(row[idx] || '') : undefined` */
  function OptTextAt(nt: NumberText, row: Row, idx: int): (r: Option<string>)
    ensures r.None? <==> idx < 0
  {
    if idx >= 0 then Some(Text(nt, CellAt(row, idx))) else None
  }

  /** `idx >= 0 ? String(row[idx] || '').trim() : undefined` */
  function OptTrimmedAt(nt: NumberText, row: Row, idx: int): (r: Option<string>)
    ensures r.None? <==> idx < 0
  {
    if idx >= 0 then Some(Trim(Text(nt, CellAt(row, idx)))) else None
  }

  /** `idx >= 0 ? parseNumber(row[idx]) : undefined` */
  function NumberAt(nt: NumberText, row: Row, idx: int): (r: Option<real>)
    ensures idx < 0 || !IsFilled(CellAt(row, idx)) ==> r.None?
  {
    if idx >= 0 then ParseNumber(nt, CellAt(row, idx)) else None
  }

  // ---- single-record extraction ----

  /** The enterprise record read from the row under the header; values are not trimmed. */
  function EnterpriseOfRow(nt: NumberText, headers: Row, dataRow: Row): (r: Option<EnterpriseInfo>)
    ensures r.None? <==>
      TextAt(nt, dataRow, ColumnIndex(nt, headers, EnterpriseNameAliases)) == ""
      && TextAt(nt, dataRow, ColumnIndex(nt, headers, EnterpriseCodeAliases)) == ""
    ensures r.Some? ==> (
      && r.value.name == TextAt(nt, dataRow, ColumnIndex(nt, headers, EnterpriseNameAliases))
      && r.value.customsCode == TextAt(nt, dataRow, ColumnIndex(nt, headers, EnterpriseCodeAliases))
      && r.value.socialCreditCode == TextAt(nt, dataRow, ColumnIndex(nt, headers, EnterpriseCreditAliases))
      && (r.value.legalPerson.None? <==> ColumnIndex(nt, headers, EnterpriseLegalAliases) < 0)
      && (r.value.phone.None? <==> ColumnIndex(nt, headers, EnterprisePhoneAliases) < 0))
  {
    var name := TextAt(nt, dataRow, ColumnIndex(nt, headers, EnterpriseNameAliases));
    var customsCode := TextAt(nt, dataRow, ColumnIndex(nt, headers, EnterpriseCodeAliases));
    if name == "" && customsCode == "" then None
    else Some(EnterpriseInfo(
      name, customsCode,
      TextAt(nt, dataRow, ColumnIndex(nt, headers, EnterpriseCreditAliases)),
      OptTextAt(nt, dataRow, ColumnIndex(nt, headers, EnterpriseLegalAliases)),
      OptTextAt(nt, dataRow, ColumnIndex(nt, headers, EnterprisePhoneAliases))))
  }

  /** `extractEnterpriseInfo` */
  function ExtractEnterpriseInfo(nt: NumberText, rows: seq<Row>): (r: Option<EnterpriseInfo>)
    ensures |rows| < 2 ==> r.None?
    ensures HeaderRow(nt, rows, EnterpriseKeywords) >= |rows| - 1 ==> r.None?
    ensures r.Some? ==> r.value.name != "" || r.value.customsCode != ""
    ensures r.Some? ==>
      var h := HeaderRow(nt, rows, EnterpriseKeywords);
      h + 1 < |rows| && r == EnterpriseOfRow(nt, rows[h], rows[h + 1])
    ensures |rows| >= 2 && HeaderRow(nt, rows, EnterpriseKeywords) < |rows| - 1 ==>
      r == EnterpriseOfRow(nt, rows[HeaderRow(nt, rows, EnterpriseKeywords)], rows[HeaderRow(nt, rows, EnterpriseKeywords) + 1])
  {
    if |rows| < 2 then None
    else
      var h := HeaderRow(nt, rows, EnterpriseKeywords);
      if h >= |rows| - 1 then None else EnterpriseOfRow(nt, rows[h], rows[h + 1])
  }

  /** The manifest record read from the row under the header; values are trimmed. */
  function DeclarationOfRow(nt: NumberText, headers: Row, dataRow: Row): (r: Option<DeclarationInfo>)
    ensures r.None? <==>
      TrimmedAt(nt, dataRow, ColumnIndex(nt, headers, ModeAliases)) == ""
      && TrimmedAt(nt, dataRow, ColumnIndex(nt, headers, RecordAliases)) == ""
    ensures r.Some? ==> (
      && r.value.supervisionMode == TrimmedAt(nt, dataRow, ColumnIndex(nt, headers, ModeAliases))
      && r.value.recordNumber == TrimmedAt(nt, dataRow, ColumnIndex(nt, headers, RecordAliases))
      && r.value.importExportFlag == TrimmedAt(nt, dataRow, ColumnIndex(nt, headers, FlagAliases))
      && (r.value.entryDate.None? <==> ColumnIndex(nt, headers, DateAliases) < 0)
      && (r.value.operatingUnitName.None? <==> ColumnIndex(nt, headers, UnitNameAliases) < 0)
      && (r.value.operatingUnitCode.None? <==> ColumnIndex(nt, headers, UnitCodeAliases) < 0))
  {
    var supervisionMode := TrimmedAt(nt, dataRow, ColumnIndex(nt, headers, ModeAliases));
    var recordNumber := TrimmedAt(nt, dataRow, ColumnIndex(nt, headers, RecordAliases));
    if supervisionMode == "" && recordNumber == "" then None
    else Some(DeclarationInfo(
      supervisionMode, recordNumber,
      TrimmedAt(nt, dataRow, ColumnIndex(nt, headers, FlagAliases)),
      OptTrimmedAt(nt, dataRow, ColumnIndex(nt, headers, DateAliases)),
      OptTrimmedAt(nt, dataRow, ColumnIndex(nt, headers, UnitNameAliases)),
      OptTrimmedAt(nt, dataRow, ColumnIndex(nt, headers, UnitCodeAliases))))
  }

  /** `extractDeclarationInfo` */
  function ExtractDeclarationInfo(nt: NumberText, rows: seq<Row>): (r: Option<DeclarationInfo>)
    ensures |rows| < 2 ==> r.None?
    ensures HeaderRow(nt, rows, DeclarationKeywords) >= |rows| - 1 ==> r.None?
    ensures r.Some? ==> r.value.supervisionMode != "" || r.value.recordNumber != ""
    ensures r.Some? ==>
      var h := HeaderRow(nt, rows, DeclarationKeywords);
      h + 1 < |rows| && r == DeclarationOfRow(nt, rows[h], rows[h + 1])
    ensures |rows| >= 2 && HeaderRow(nt, rows, DeclarationKeywords) < |rows| - 1 ==>
      r == DeclarationOfRow(nt, rows[HeaderRow(nt, rows, DeclarationKeywords)], rows[HeaderRow(nt, rows, DeclarationKeywords) + 1])
  {
    if |rows| < 2 then None
    else
      var h := HeaderRow(nt, rows, DeclarationKeywords);
      if h >= |rows| - 1 then None else DeclarationOfRow(nt, rows[h], rows[h + 1])
  }

  // ---- customers ----

  datatype CustomerColumns = CustomerColumns(name: int, code: int, credit: int, english: int)

  function CustomerColumnsOf(nt: NumberText, headers: Row): CustomerColumns {
    CustomerColumns(
      ColumnIndex(nt, headers, CustomerNameAliases), ColumnIndex(nt, headers, CustomerCodeAliases),
      ColumnIndex(nt, headers, CustomerCreditAliases), ColumnIndex(nt, headers, CustomerEnglishAliases))
  }

  /** One data row as a customer, or None when both name and code are blank after trimming. */
  function CustomerOfRow(nt: NumberText, cols: CustomerColumns, row: Row): (r: Option<CustomerInfo>)
    ensures r.None? <==> TrimmedAt(nt, row, cols.name) == "" && TrimmedAt(nt, row, cols.code) == ""
    ensures r.Some? ==> (
      && r.value.name == TrimmedAt(nt, row, cols.name)
      && r.value.customsCode == TrimmedAt(nt, row, cols.code)
      && (r.value.socialCreditCode.None? <==> cols.credit < 0)
      && (r.value.englishName.None? <==> cols.english < 0))
  {
    var name := TrimmedAt(nt, row, cols.name);
    var customsCode := TrimmedAt(nt, row, cols.code);
    if name == "" && customsCode == "" then None
    else Some(CustomerInfo(name, customsCode, OptTrimmedAt(nt, row, cols.credit), OptTrimmedAt(nt, row, cols.english)))
  }

  /** The customers of the given rows, in row order. */
  function CustomersIn(nt: NumberText, cols: CustomerColumns, rows: seq<Row>): (cs: seq<CustomerInfo>)
    ensures |cs| <= |rows|
  {
    if |rows| == 0 then []
    else
      var front := CustomersIn(nt, cols, rows[..|rows| - 1]);
      match CustomerOfRow(nt, cols, rows[|rows| - 1])
      case Some(c) => front + [c]
      case None => front
  }

  /** Extraction distributes over row concatenation, so customers keep row order. */
  lemma {:induction false} CustomersInAppend(nt: NumberText, cols: CustomerColumns, a: seq<Row>, b: seq<Row>)
    ensures CustomersIn(nt, cols, a + b) == CustomersIn(nt, cols, a) + CustomersIn(nt, cols, b)
    decreases |b|
  {
    if |b| == 0 {
      assert a + b == a;
    } else {
      var n := |b| - 1;
      assert (a + b)[..|a + b| - 1] == a + b[..n];
      assert (a + b)[|a + b| - 1] == b[n];
      CustomersInAppend(nt, cols, a, b[..n]);
    }
  }

  /** Every customer comes from one row that has a name or a code. */
  lemma {:induction false} CustomersInFromRows(nt: NumberText, cols: CustomerColumns, rows: seq<Row>, c: CustomerInfo)
    requires c in CustomersIn(nt, cols, rows)
    ensures c.name != "" || c.customsCode != ""
    ensures exists i :: 0 <= i < |rows| && CustomerOfRow(nt, cols, rows[i]) == Some(c)
    decreases |rows|
  {
    var n := |rows| - 1;
    if c in CustomersIn(nt, cols, rows[..n]) {
      CustomersInFromRows(nt, cols, rows[..n], c);
      var i :| 0 <= i < n && CustomerOfRow(nt, cols, rows[..n][i]) == Some(c);
      assert rows[i] == rows[..n][i];
    } else {
      assert CustomerOfRow(nt, cols, rows[n]) == Some(c);
    }
  }

  /** `extractCustomerInfo` as a value: the customers of the rows after the header row. */
  function CustomersOfSheet(nt: NumberText, rows: seq<Row>): (cs: seq<CustomerInfo>)
    ensures |rows| < 2 ==> cs == []
    ensures |cs| <= |rows| - 1 - HeaderRow(nt, rows, CustomerKeywords) || cs == []
  {
    if |rows| < 2 then []
    else
      CustomersBelow(nt, rows, HeaderRow(nt, rows, CustomerKeywords))
  }

  /** The customers of the rows after header row `h`, none when `h` is the last row. */
  function CustomersBelow(nt: NumberText, rows: seq<Row>, h: nat): (cs: seq<CustomerInfo>)
    ensures |cs| <= |rows| - 1 - h || cs == []
  {
    if h >= |rows| - 1 then [] else CustomersIn(nt, CustomerColumnsOf(nt, rows[h]), rows[h + 1..])
  }

  /** `extractCustomerInfo`: one record per post-header row with a name or a code, in row order. */
  method ExtractCustomerInfo(nt: NumberText, rows: seq<Row>) returns (customers: seq<CustomerInfo>)
    ensures customers == CustomersOfSheet(nt, rows)
  {
    if |rows| < 2 {
      return [];
    }
    var headerRow := FindHeaderRow(nt, rows, CustomerKeywords);
    if headerRow >= |rows| - 1 {
      return [];
    }
    var cols := FindCustomerColumns(nt, rows[headerRow]);
    customers := ReadCustomerRows(nt, cols, rows[headerRow + 1..]);
    CustomersOfSheetBelow(nt, rows, headerRow);
    CustomersBelowHeader(nt, rows, headerRow);
  }

  lemma CustomersOfSheetBelow(nt: NumberText, rows: seq<Row>, h: nat)
    requires 2 <= |rows| && h == HeaderRow(nt, rows, CustomerKeywords)
    ensures CustomersOfSheet(nt, rows) == CustomersBelow(nt, rows, h)
  {
  }

  lemma CustomersBelowHeader(nt: NumberText, rows: seq<Row>, h: nat)
    requires h < |rows| - 1
    ensures CustomersBelow(nt, rows, h) == CustomersIn(nt, CustomerColumnsOf(nt, rows[h]), rows[h + 1..])
  {
  }

  /** The four column lookups of `extractCustomerInfo`. */
  method FindCustomerColumns(nt: NumberText, headers: Row) returns (cols: CustomerColumns)
    ensures cols == CustomerColumnsOf(nt, headers)
  {
    var nameIdx := FindColumnIndex(nt, headers, CustomerNameAliases);
    var codeIdx := FindColumnIndex(nt, headers, CustomerCodeAliases);
    var creditIdx := FindColumnIndex(nt, headers, CustomerCreditAliases);
    var englishIdx := FindColumnIndex(nt, headers, CustomerEnglishAliases);
    cols := CustomerColumns(nameIdx, codeIdx, creditIdx, englishIdx);
  }

  /** The row loop of `extractCustomerInfo`. */
  method ReadCustomerRows(nt: NumberText, cols: CustomerColumns, dataRows: seq<Row>) returns (customers: seq<CustomerInfo>)
    ensures customers == CustomersIn(nt, cols, dataRows)
  {
    customers := [];
    var i := 0;
    while i < |dataRows|
      invariant 0 <= i <= |dataRows|
      invariant customers == CustomersIn(nt, cols, dataRows[..i])
    {
      var row := dataRows[i];
      var name := TrimmedAt(nt, row, cols.name);
      var customsCode := TrimmedAt(nt, row, cols.code);
      assert dataRows[..i + 1][..i] == dataRows[..i];
      if name != "" || customsCode != "" {
        customers := customers + [CustomerInfo(name, customsCode, OptTrimmedAt(nt, row, cols.credit), OptTrimmedAt(nt, row, cols.english))];
      }
      i := i + 1;
    }
    assert dataRows[..i] == dataRows;
  }

  // ---- goods ----

  /** `generateMatchKey`: HS code, then item code, then name, each trimmed; else "UNKNOWN". */
  function GenerateMatchKey(item: GoodsItem): (k: string)
    ensures k != ""
    ensures k == "UNKNOWN" <==>
      Trim(item.hsCode) == "" && (item.itemCode.None? || Trim(item.itemCode.value) == "") && Trim(item.goodsName) == ""
    ensures Trim(item.hsCode) != "" ==> k == "HS:" + Trim(item.hsCode)
    ensures Trim(item.hsCode) == "" && item.itemCode.Some? && Trim(item.itemCode.value) != "" ==>
      k == "CODE:" + Trim(item.itemCode.value)
    ensures Trim(item.hsCode) == "" && (item.itemCode.None? || Trim(item.itemCode.value) == "") && Trim(item.goodsName) != "" ==>
      k == "NAME:" + Trim(item.goodsName)
  {
    if Trim(item.hsCode) != "" then
      assert ("HS:" + Trim(item.hsCode))[0] == 'H';
      "HS:" + Trim(item.hsCode)
    else if item.itemCode.Some? && Trim(item.itemCode.value) != "" then
      assert ("CODE:" + Trim(item.itemCode.value))[0] == 'C';
      "CODE:" + Trim(item.itemCode.value)
    else if Trim(item.goodsName) != "" then
      assert ("NAME:" + Trim(item.goodsName))[0] == 'N';
      "NAME:" + Trim(item.goodsName)
    else "UNKNOWN"
  }

  /** Lines with an HS code share a match key exactly when their trimmed HS codes agree, whatever their other fields. */
  lemma MatchKeyIdentifiesHsCode(a: GoodsItem, b: GoodsItem)
    requires Trim(a.hsCode) != ""
    ensures GenerateMatchKey(a) == GenerateMatchKey(b) <==> Trim(b.hsCode) == Trim(a.hsCode)
  {
    var ka := GenerateMatchKey(a);
    var kb := GenerateMatchKey(b);
    if Trim(b.hsCode) != "" {
      if ka == kb {
        assert Trim(a.hsCode) == ka[3..] && Trim(b.hsCode) == kb[3..];
      }
    } else {
      assert ka[0] == 'H';
      assert kb[0] != 'H' || kb == "UNKNOWN";
    }
  }

  /** Any of the subtotal or total markers. */
  predicate IsSummaryText(text: string) {
    Contains(text, "合计") || Contains(text, "总计") || Contains(text, "小计")
  }

  datatype GoodsColumns = GoodsColumns(
    hsCode: int, goodsName: int, quantity: int, unit: int, unitPrice: int,
    totalPrice: int, origin: int, netWeight: int, grossWeight: int, itemCode: int)

  function GoodsColumnsOf(nt: NumberText, headers: Row): GoodsColumns {
    GoodsColumns(
      ColumnIndex(nt, headers, HsCodeAliases), ColumnIndex(nt, headers, GoodsNameAliases),
      ColumnIndex(nt, headers, QuantityAliases), ColumnIndex(nt, headers, UnitAliases),
      ColumnIndex(nt, headers, UnitPriceAliases), ColumnIndex(nt, headers, TotalPriceAliases),
      ColumnIndex(nt, headers, OriginAliases), ColumnIndex(nt, headers, NetWeightAliases),
      ColumnIndex(nt, headers, GrossWeightAliases), ColumnIndex(nt, headers, ItemCodeAliases))
  }

  /** A goods line before its match key is filled in; the currency is never read. */
  function GoodsDraft(nt: NumberText, cols: GoodsColumns, row: Row): GoodsItem {
    GoodsItem(
      TrimmedAt(nt, row, cols.goodsName), TrimmedAt(nt, row, cols.hsCode),
      NumberAt(nt, row, cols.quantity), OptTrimmedAt(nt, row, cols.unit),
      NumberAt(nt, row, cols.unitPrice), NumberAt(nt, row, cols.totalPrice),
      None, OptTrimmedAt(nt, row, cols.origin),
      NumberAt(nt, row, cols.netWeight), NumberAt(nt, row, cols.grossWeight),
      OptTrimmedAt(nt, row, cols.itemCode), "")
  }

  /** Rows without content, summary rows and rows with neither HS code nor name are skipped. */
  predicate IsGoodsRow(nt: NumberText, cols: GoodsColumns, row: Row) {
    && HasContent(row)
    && !IsSummaryText(Lower(JoinRow(nt, row, "")))
    && (TrimmedAt(nt, row, cols.hsCode) != "" || TrimmedAt(nt, row, cols.goodsName) != "")
  }

  /** One data row as a goods line, keyed by `generateMatchKey`. */
  function GoodsOfRow(nt: NumberText, cols: GoodsColumns, row: Row): (r: Option<GoodsItem>)
    ensures r.Some? <==> IsGoodsRow(nt, cols, row)
    ensures r.Some? ==> r.value == GoodsDraft(nt, cols, row).(matchKey := r.value.matchKey)
    ensures r.Some? ==> r.value.matchKey == GenerateMatchKey(r.value) && r.value.matchKey != "UNKNOWN"
  {
    if !IsGoodsRow(nt, cols, row) then None
    else
      var draft := GoodsDraft(nt, cols, row);
      TrimIdempotent(Text(nt, CellAt(row, cols.hsCode)));
      TrimIdempotent(Text(nt, CellAt(row, cols.goodsName)));
      Some(draft.(matchKey := GenerateMatchKey(draft)))
  }

  /** A numeric field is left unset, never 0, when its column is missing or its cell is empty. */
  lemma NumericFieldsNeverDefaulted(nt: NumberText, cols: GoodsColumns, row: Row)
    requires IsGoodsRow(nt, cols, row)
    ensures cols.quantity < 0 || !IsFilled(CellAt(row, cols.quantity)) ==> GoodsOfRow(nt, cols, row).value.quantity.None?
    ensures cols.totalPrice < 0 || !IsFilled(CellAt(row, cols.totalPrice)) ==> GoodsOfRow(nt, cols, row).value.totalPrice.None?
    ensures cols.netWeight < 0 || !IsFilled(CellAt(row, cols.netWeight)) ==> GoodsOfRow(nt, cols, row).value.netWeight.None?
  {
  }

  /** The goods lines of the given rows, in row order. */
  function GoodsIn(nt: NumberText, cols: GoodsColumns, rows: seq<Row>): (gs: seq<GoodsItem>)
    ensures |gs| <= |rows|
  {
    if |rows| == 0 then []
    else
      var front := GoodsIn(nt, cols, rows[..|rows| - 1]);
      match GoodsOfRow(nt, cols, rows[|rows| - 1])
      case Some(g) => front + [g]
      case None => front
  }

  /** Extraction distributes over row concatenation, so goods keep row order. */
  lemma {:induction false} GoodsInAppend(nt: NumberText, cols: GoodsColumns, a: seq<Row>, b: seq<Row>)
    ensures GoodsIn(nt, cols, a + b) == GoodsIn(nt, cols, a) + GoodsIn(nt, cols, b)
    decreases |b|
  {
    if |b| == 0 {
      assert a + b == a;
    } else {
      var n := |b| - 1;
      assert (a + b)[..|a + b| - 1] == a + b[..n];
      assert (a + b)[|a + b| - 1] == b[n];
      GoodsInAppend(nt, cols, a, b[..n]);
    }
  }

  /** Every goods line comes from one goods row and carries a real match key. */
  lemma {:induction false} GoodsInFromRows(nt: NumberText, cols: GoodsColumns, rows: seq<Row>, g: GoodsItem)
    requires g in GoodsIn(nt, cols, rows)
    ensures g.hsCode != "" || g.goodsName != ""
    ensures g.matchKey == GenerateMatchKey(g) && g.matchKey != "UNKNOWN"
    ensures exists i :: 0 <= i < |rows| && GoodsOfRow(nt, cols, rows[i]) == Some(g)
    decreases |rows|
  {
    var n := |rows| - 1;
    if g in GoodsIn(nt, cols, rows[..n]) {
      GoodsInFromRows(nt, cols, rows[..n], g);
      var i :| 0 <= i < n && GoodsOfRow(nt, cols, rows[..n][i]) == Some(g);
      assert rows[i] == rows[..n][i];
    } else {
      assert GoodsOfRow(nt, cols, rows[n]) == Some(g);
    }
  }

  /** `extractGoodsItems` as a value: the goods lines of the rows after the header row. */
  function GoodsOfSheet(nt: NumberText, rows: seq<Row>): (gs: seq<GoodsItem>)
    ensures |rows| < 2 ==> gs == []
    ensures |gs| <= |rows| - 1 - HeaderRow(nt, rows, GoodsKeywords) || gs == []
  {
    if |rows| < 2 then []
    else
      GoodsBelow(nt, rows, HeaderRow(nt, rows, GoodsKeywords))
  }

  /** The goods lines of the rows after header row `h`, none when `h` is the last row. */
  function GoodsBelow(nt: NumberText, rows: seq<Row>, h: nat): (gs: seq<GoodsItem>)
    ensures |gs| <= |rows| - 1 - h || gs == []
  {
    if h >= |rows| - 1 then [] else GoodsIn(nt, GoodsColumnsOf(nt, rows[h]), rows[h + 1..])
  }

  /** `extractGoodsItems`: the goods lines after the header row, in row order. */
  method ExtractGoodsItems(nt: NumberText, rows: seq<Row>) returns (items: seq<GoodsItem>)
    ensures items == GoodsOfSheet(nt, rows)
  {
    if |rows| < 2 {
      return [];
    }
    var headerRow := FindHeaderRow(nt, rows, GoodsKeywords);
    if headerRow >= |rows| - 1 {
      return [];
    }
    var cols := FindGoodsColumns(nt, rows[headerRow]);
    items := ReadGoodsRows(nt, cols, rows[headerRow + 1..]);
    GoodsOfSheetBelow(nt, rows, headerRow);
    GoodsBelowHeader(nt, rows, headerRow);
  }

  lemma GoodsOfSheetBelow(nt: NumberText, rows: seq<Row>, h: nat)
    requires 2 <= |rows| && h == HeaderRow(nt, rows, GoodsKeywords)
    ensures GoodsOfSheet(nt, rows) == GoodsBelow(nt, rows, h)
  {
  }

  lemma GoodsBelowHeader(nt: NumberText, rows: seq<Row>, h: nat)
    requires h < |rows| - 1
    ensures GoodsBelow(nt, rows, h) == GoodsIn(nt, GoodsColumnsOf(nt, rows[h]), rows[h + 1..])
  {
  }

  /** The ten column lookups of `extractGoodsItems`. */
  method FindGoodsColumns(nt: NumberText, headers: Row) returns (cols: GoodsColumns)
    ensures cols == GoodsColumnsOf(nt, headers)
  {
    var hsCodeIdx := FindColumnIndex(nt, headers, HsCodeAliases);
    var goodsNameIdx := FindColumnIndex(nt, headers, GoodsNameAliases);
    var quantityIdx := FindColumnIndex(nt, headers, QuantityAliases);
    var unitIdx := FindColumnIndex(nt, headers, UnitAliases);
    var unitPriceIdx := FindColumnIndex(nt, headers, UnitPriceAliases);
    var totalPriceIdx := FindColumnIndex(nt, headers, TotalPriceAliases);
    var originIdx := FindColumnIndex(nt, headers, OriginAliases);
    var netWeightIdx := FindColumnIndex(nt, headers, NetWeightAliases);
    var grossWeightIdx := FindColumnIndex(nt, headers, GrossWeightAliases);
    var itemCodeIdx := FindColumnIndex(nt, headers, ItemCodeAliases);
    cols := GoodsColumns(hsCodeIdx, goodsNameIdx, quantityIdx, unitIdx, unitPriceIdx,
      totalPriceIdx, originIdx, netWeightIdx, grossWeightIdx, itemCodeIdx);
  }

  /** The row loop of `extractGoodsItems`. */
  method ReadGoodsRows(nt: NumberText, cols: GoodsColumns, dataRows: seq<Row>) returns (items: seq<GoodsItem>)
    ensures items == GoodsIn(nt, cols, dataRows)
  {
    items := [];
    var i := 0;
    while i < |dataRows|
      invariant 0 <= i <= |dataRows|
      invariant items == GoodsIn(nt, cols, dataRows[..i])
    {
      var row := dataRows[i];
      assert dataRows[..i + 1][..i] == dataRows[..i];
      i := i + 1;
      if !HasContent(row) {
        continue;
      }
      var rowText := Lower(JoinRow(nt, row, ""));
      if Contains(rowText, "合计") || Contains(rowText, "总计") || Contains(rowText, "小计") {
        continue;
      }
      var hsCode := TrimmedAt(nt, row, cols.hsCode);
      var goodsName := TrimmedAt(nt, row, cols.goodsName);
      if hsCode == "" && goodsName == "" {
        continue;
      }
      var item := GoodsItem(
        goodsName, hsCode,
        NumberAt(nt, row, cols.quantity), OptTrimmedAt(nt, row, cols.unit),
        NumberAt(nt, row, cols.unitPrice), NumberAt(nt, row, cols.totalPrice),
        None, OptTrimmedAt(nt, row, cols.origin),
        NumberAt(nt, row, cols.netWeight), NumberAt(nt, row, cols.grossWeight),
        OptTrimmedAt(nt, row, cols.itemCode), "");
      item := item.(matchKey := GenerateMatchKey(item));
      items := items + [item];
    }
    assert dataRows[..i] == dataRows;
  }

  // ---- the whole file ----

  /** A classified sheet together with its rows (the workbook lookup by sheet name, resolved). */
  datatype ClassifiedSheet = ClassifiedSheet(info: SheetClassification, rows: seq<Row>)

  /** Pairs every sheet of a workbook with its classification, in workbook order. */
  function ClassifyWorkbook(nt: NumberText, fileName: string, workbook: seq<(string, seq<Row>)>): (cs: seq<ClassifiedSheet>)
    ensures |cs| == |workbook|
    ensures forall i :: 0 <= i < |cs| ==>
      cs[i].info == ParseExcelFile(nt, fileName, workbook).sheets[i] && cs[i].rows == workbook[i].1
  {
    var parsed := ParseExcelFile(nt, fileName, workbook);
    seq(|workbook|, i requires 0 <= i < |workbook| => ClassifiedSheet(parsed.sheets[i], workbook[i].1))
  }

  const NoData := ExtractedData(None, None, None, None, 0)

  predicate IsGoodsType(t: SheetType) {
    t == Invoice || t == Packing
  }

  /** What one sheet contributes: the extractor named by its type, run on its rows. */
  datatype SheetYield = SheetYield(
    sheetType: SheetType,
    dataRows: nat,
    enterprise: Option<EnterpriseInfo>,
    customers: seq<CustomerInfo>,
    declaration: Option<DeclarationInfo>,
    goods: seq<GoodsItem>)

  function YieldOf(nt: NumberText, sheet: ClassifiedSheet): (y: SheetYield)
    ensures y.sheetType == sheet.info.sheetType && y.dataRows == sheet.info.dataRows
  {
    var t := sheet.info.sheetType;
    SheetYield(
      t, sheet.info.dataRows,
      if t == Enterprise then ExtractEnterpriseInfo(nt, sheet.rows) else None,
      if t == Customer then CustomersOfSheet(nt, sheet.rows) else [],
      if t == Declaration then ExtractDeclarationInfo(nt, sheet.rows) else None,
      if IsGoodsType(t) then GoodsOfSheet(nt, sheet.rows) else [])
  }

  function Yields(nt: NumberText, sheets: seq<ClassifiedSheet>): (ys: seq<SheetYield>)
    ensures |ys| == |sheets|
  {
    seq(|sheets|, i requires 0 <= i < |sheets| => YieldOf(nt, sheets[i]))
  }

  /** One pass of the loop of `extractDataFromFile`: the switch on the sheet type, then the row count. */
  function AddYield(acc: ExtractedData, y: SheetYield): (r: ExtractedData)
    ensures r.totalRows == acc.totalRows + y.dataRows
  {
    var counted := acc.(totalRows := acc.totalRows + y.dataRows);
    match y.sheetType
    case Enterprise => if acc.enterprise.None? then counted.(enterprise := y.enterprise) else counted
    case Customer => if acc.customers.None? then counted.(customers := Some(y.customers)) else counted
    case Declaration => if acc.declaration.None? then counted.(declaration := y.declaration) else counted
    case Invoice => counted.(goods := Some(acc.goods.GetOr([]) + y.goods))
    case Packing => counted.(goods := Some(acc.goods.GetOr([]) + y.goods))
    case Unknown => counted
  }

  function FoldYields(ys: seq<SheetYield>): (r: ExtractedData)
    ensures |ys| == 0 ==> r == NoData
  {
    if |ys| == 0 then NoData else AddYield(FoldYields(ys[..|ys| - 1]), ys[|ys| - 1])
  }

  /** `extractDataFromFile` as a value: the loop folded over the sheets in order. */
  function ExtractFile(nt: NumberText, sheets: seq<ClassifiedSheet>): ExtractedData {
    FoldYields(Yields(nt, sheets))
  }

  /** `extractDataFromFile` */
  method ExtractDataFromFile(nt: NumberText, sheets: seq<ClassifiedSheet>) returns (result: ExtractedData)
    ensures result == ExtractFile(nt, sheets)
  {
    result := NoData;
    var i := 0;
    while i < |sheets|
      invariant 0 <= i <= |sheets|
      invariant result == FoldYields(Yields(nt, sheets[..i]))
    {
      YieldsSnoc(nt, sheets, i);
      result := AddSheet(nt, result, sheets[i]);
      i := i + 1;
    }
    assert sheets[..i] == sheets;
  }

  /** One more sheet folds its yield into the data of the sheets before it. */
  lemma YieldsSnoc(nt: NumberText, sheets: seq<ClassifiedSheet>, i: nat)
    requires i < |sheets|
    ensures FoldYields(Yields(nt, sheets[..i + 1])) == AddYield(FoldYields(Yields(nt, sheets[..i])), YieldOf(nt, sheets[i]))
  {
    var ys := Yields(nt, sheets[..i + 1]);
    assert |ys| == i + 1;
    assert ys[..i] == Yields(nt, sheets[..i]);
    assert ys[i] == YieldOf(nt, sheets[i]);
  }

  /** The body of the loop of `extractDataFromFile`: one sheet, dispatched on its type. */
  method AddSheet(nt: NumberText, acc: ExtractedData, sheet: ClassifiedSheet) returns (result: ExtractedData)
    ensures result == AddYield(acc, YieldOf(nt, sheet))
  {
    var rows := sheet.rows;
    result := acc;
    match sheet.info.sheetType {
      case Enterprise =>
        if result.enterprise.None? {
          result := result.(enterprise := ExtractEnterpriseInfo(nt, rows));
        }
      case Customer =>
        if result.customers.None? {
          var customers := ExtractCustomerInfo(nt, rows);
          result := result.(customers := Some(customers));
        }
      case Declaration =>
        if result.declaration.None? {
          result := result.(declaration := ExtractDeclarationInfo(nt, rows));
        }
      case Invoice =>
        var items := ExtractGoodsItems(nt, rows);
        assert [] + items == items;
        result := result.(goods := Some(if result.goods.None? then items else result.goods.value + items));
      case Packing =>
        var items := ExtractGoodsItems(nt, rows);
        assert [] + items == items;
        result := result.(goods := Some(if result.goods.None? then items else result.goods.value + items));
      case Unknown =>
    }
    result := result.(totalRows := result.totalRows + sheet.info.dataRows);
    AddYieldOfSheet(nt, acc, sheet);
  }

  /** AddYield on a sheet's yield, case by case: only the extractor named by the type takes part. */
  lemma AddYieldOfSheet(nt: NumberText, acc: ExtractedData, sheet: ClassifiedSheet)
    ensures var counted := acc.(totalRows := acc.totalRows + sheet.info.dataRows);
      AddYield(acc, YieldOf(nt, sheet)) == match sheet.info.sheetType
        case Enterprise =>
          if acc.enterprise.None? then counted.(enterprise := ExtractEnterpriseInfo(nt, sheet.rows)) else counted
        case Customer =>
          if acc.customers.None? then counted.(customers := Some(CustomersOfSheet(nt, sheet.rows))) else counted
        case Declaration =>
          if acc.declaration.None? then counted.(declaration := ExtractDeclarationInfo(nt, sheet.rows)) else counted
        case Invoice => counted.(goods := Some(acc.goods.GetOr([]) + GoodsOfSheet(nt, sheet.rows)))
        case Packing => counted.(goods := Some(acc.goods.GetOr([]) + GoodsOfSheet(nt, sheet.rows)))
        case Unknown => counted
  {
  }

  function Infos(sheets: seq<ClassifiedSheet>): (infos: seq<SheetClassification>)
    ensures |infos| == |sheets|
  {
    seq(|sheets|, i requires 0 <= i < |sheets| => sheets[i].info)
  }

  lemma {:induction false} FoldTotalRows(ys: seq<SheetYield>, infos: seq<SheetClassification>)
    requires |ys| == |infos| && forall i :: 0 <= i < |ys| ==> ys[i].dataRows == infos[i].dataRows
    ensures FoldYields(ys).totalRows == TotalDataRows(infos)
    decreases |ys|
  {
    if |ys| > 0 {
      var n := |ys| - 1;
      FoldTotalRows(ys[..n], infos[..n]);
    }
  }

  /** The row total is the sum of the classifier's data-row counts over all sheets, whatever their type. */
  lemma ExtractFileTotalRows(nt: NumberText, sheets: seq<ClassifiedSheet>)
    ensures ExtractFile(nt, sheets).totalRows == TotalDataRows(Infos(sheets))
  {
    FoldTotalRows(Yields(nt, sheets), Infos(sheets));
  }

  /** The goods of all invoice and packing yields, concatenated in sheet order. */
  function ConcatGoods(ys: seq<SheetYield>): seq<GoodsItem> {
    if |ys| == 0 then []
    else ConcatGoods(ys[..|ys| - 1]) + (if IsGoodsType(ys[|ys| - 1].sheetType) then ys[|ys| - 1].goods else [])
  }

  lemma {:induction false} FoldGoods(ys: seq<SheetYield>)
    ensures FoldYields(ys).goods.None? <==> forall i :: 0 <= i < |ys| ==> !IsGoodsType(ys[i].sheetType)
    ensures FoldYields(ys).goods == (if FoldYields(ys).goods.None? then None else Some(ConcatGoods(ys)))
    decreases |ys|
  {
    if |ys| > 0 {
      var n := |ys| - 1;
      var front := FoldYields(ys[..n]);
      var y := ys[n];
      assert FoldYields(ys) == AddYield(front, y);
      assert ConcatGoods(ys) == ConcatGoods(ys[..n]) + (if IsGoodsType(y.sheetType) then y.goods else []);
      AddYieldGoods(front, y);
      FoldGoods(ys[..n]);
      if front.goods.None? {
        forall i | 0 <= i < n
          ensures !IsGoodsType(ys[i].sheetType)
        {
          assert ys[..n][i] == ys[i];
        }
        NoGoodsYields(ys[..n]);
        if IsGoodsType(y.sheetType) {
          assert [] + y.goods == y.goods;
        }
      } else {
        var i :| 0 <= i < n && IsGoodsType(ys[..n][i].sheetType);
        assert ys[..n][i] == ys[i];
        if !IsGoodsType(y.sheetType) {
          assert ConcatGoods(ys[..n]) + [] == ConcatGoods(ys[..n]);
        }
      }
    }
  }

  /** A yield adds goods exactly when its sheet is an invoice or packing sheet. */
  lemma AddYieldGoods(acc: ExtractedData, y: SheetYield)
    ensures AddYield(acc, y).goods == if IsGoodsType(y.sheetType) then Some(acc.goods.GetOr([]) + y.goods) else acc.goods
  {
  }

  lemma {:induction false} NoGoodsYields(ys: seq<SheetYield>)
    requires forall i :: 0 <= i < |ys| ==> !IsGoodsType(ys[i].sheetType)
    ensures ConcatGoods(ys) == []
    decreases |ys|
  {
    if |ys| > 0 {
      var n := |ys| - 1;
      assert forall i :: 0 <= i < n ==> ys[..n][i] == ys[i];
      NoGoodsYields(ys[..n]);
    }
  }

  /** The goods of all invoice and packing sheets, concatenated in sheet order. */
  function GoodsOfSheets(nt: NumberText, sheets: seq<ClassifiedSheet>): seq<GoodsItem> {
    if |sheets| == 0 then []
    else
      GoodsOfSheets(nt, sheets[..|sheets| - 1])
      + (if IsGoodsType(sheets[|sheets| - 1].info.sheetType) then GoodsOfSheet(nt, sheets[|sheets| - 1].rows) else [])
  }

  lemma {:induction false} ConcatGoodsOfYields(nt: NumberText, sheets: seq<ClassifiedSheet>)
    ensures ConcatGoods(Yields(nt, sheets)) == GoodsOfSheets(nt, sheets)
    decreases |sheets|
  {
    if |sheets| > 0 {
      var n := |sheets| - 1;
      assert Yields(nt, sheets)[..n] == Yields(nt, sheets[..n]);
      ConcatGoodsOfYields(nt, sheets[..n]);
    }
  }

  /** Goods are unset exactly when no sheet is an invoice or packing sheet; otherwise they are every goods sheet's lines, in sheet order. */
  lemma ExtractFileGoods(nt: NumberText, sheets: seq<ClassifiedSheet>)
    ensures ExtractFile(nt, sheets).goods.None? <==> forall i :: 0 <= i < |sheets| ==> !IsGoodsType(sheets[i].info.sheetType)
    ensures ExtractFile(nt, sheets).goods.Some? ==> ExtractFile(nt, sheets).goods.value == GoodsOfSheets(nt, sheets)
  {
    var ys := Yields(nt, sheets);
    assert forall i :: 0 <= i < |sheets| ==> ys[i].sheetType == sheets[i].info.sheetType;
    FoldGoods(ys);
    ConcatGoodsOfYields(nt, sheets);
  }

  lemma {:induction false} FoldFirstCustomers(ys: seq<SheetYield>, k: nat)
    requires k < |ys| && ys[k].sheetType == Customer
    requires forall j :: 0 <= j < k ==> ys[j].sheetType != Customer
    ensures FoldYields(ys).customers == Some(ys[k].customers)
    decreases |ys|
  {
    var n := |ys| - 1;
    if n == k {
      FoldNoCustomers(ys[..n]);
    } else {
      FoldFirstCustomers(ys[..n], k);
    }
  }

  lemma {:induction false} FoldNoCustomers(ys: seq<SheetYield>)
    requires forall j :: 0 <= j < |ys| ==> ys[j].sheetType != Customer
    ensures FoldYields(ys).customers.None?
    decreases |ys|
  {
    if |ys| > 0 {
      FoldNoCustomers(ys[..|ys| - 1]);
    }
  }

  /** The customer list is fixed by the first customer sheet, even when that sheet yields none. */
  lemma ExtractFileCustomers(nt: NumberText, sheets: seq<ClassifiedSheet>, k: nat)
    requires k < |sheets| && sheets[k].info.sheetType == Customer
    requires forall j :: 0 <= j < k ==> sheets[j].info.sheetType != Customer
    ensures ExtractFile(nt, sheets).customers == Some(CustomersOfSheet(nt, sheets[k].rows))
  {
    FoldFirstCustomers(Yields(nt, sheets), k);
  }

  lemma {:induction false} FoldFirstEnterprise(ys: seq<SheetYield>, k: nat)
    requires k < |ys| && ys[k].sheetType == Enterprise && ys[k].enterprise.Some?
    requires forall j :: 0 <= j < k && ys[j].sheetType == Enterprise ==> ys[j].enterprise.None?
    ensures FoldYields(ys).enterprise == ys[k].enterprise
    decreases |ys|
  {
    var n := |ys| - 1;
    if n == k {
      FoldNoEnterprise(ys[..n]);
    } else {
      FoldFirstEnterprise(ys[..n], k);
    }
  }

  lemma {:induction false} FoldNoEnterprise(ys: seq<SheetYield>)
    requires forall j :: 0 <= j < |ys| && ys[j].sheetType == Enterprise ==> ys[j].enterprise.None?
    ensures FoldYields(ys).enterprise.None?
    decreases |ys|
  {
    if |ys| > 0 {
      FoldNoEnterprise(ys[..|ys| - 1]);
    }
  }

  /** The enterprise comes from the first enterprise sheet that yields one; later sheets cannot replace it. */
  lemma ExtractFileEnterprise(nt: NumberText, sheets: seq<ClassifiedSheet>, k: nat)
    requires k < |sheets| && sheets[k].info.sheetType == Enterprise && ExtractEnterpriseInfo(nt, sheets[k].rows).Some?
    requires forall j :: 0 <= j < k && sheets[j].info.sheetType == Enterprise ==> ExtractEnterpriseInfo(nt, sheets[j].rows).None?
    ensures ExtractFile(nt, sheets).enterprise == ExtractEnterpriseInfo(nt, sheets[k].rows)
  {
    FoldFirstEnterprise(Yields(nt, sheets), k);
  }

  lemma {:induction false} FoldFirstDeclaration(ys: seq<SheetYield>, k: nat)
    requires k < |ys| && ys[k].sheetType == Declaration && ys[k].declaration.Some?
    requires forall j :: 0 <= j < k && ys[j].sheetType == Declaration ==> ys[j].declaration.None?
    ensures FoldYields(ys).declaration == ys[k].declaration
    decreases |ys|
  {
    var n := |ys| - 1;
    if n == k {
      FoldNoDeclaration(ys[..n]);
    } else {
      FoldFirstDeclaration(ys[..n], k);
    }
  }

  lemma {:induction false} FoldNoDeclaration(ys: seq<SheetYield>)
    requires forall j :: 0 <= j < |ys| && ys[j].sheetType == Declaration ==> ys[j].declaration.None?
    ensures FoldYields(ys).declaration.None?
    decreases |ys|
  {
    if |ys| > 0 {
      FoldNoDeclaration(ys[..|ys| - 1]);
    }
  }

  /** The manifest record comes from the first declaration sheet that yields one. */
  lemma ExtractFileDeclaration(nt: NumberText, sheets: seq<ClassifiedSheet>, k: nat)
    requires k < |sheets| && sheets[k].info.sheetType == Declaration && ExtractDeclarationInfo(nt, sheets[k].rows).Some?
    requires forall j :: 0 <= j < k && sheets[j].info.sheetType == Declaration ==> ExtractDeclarationInfo(nt, sheets[j].rows).None?
    ensures ExtractFile(nt, sheets).declaration == ExtractDeclarationInfo(nt, sheets[k].rows)
  {
    FoldFirstDeclaration(Yields(nt, sheets), k);
  }
}

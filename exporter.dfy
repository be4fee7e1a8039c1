/**
 * The row arrays handed to the spreadsheet writer for the delegation letter and the
 * delegation agreements, and the status label tables.
 */
module Exporter {
  import opened Wrappers
  import opened Strings
  import opened Cells
  import opened Extractor
  import opened Merger
  import opened DelegationTypes
  import Mapper

  /** `value || ''` on an optional text */
  function OrEmpty(o: Option<string>): (s: string)
    ensures o.Some? ==> s == o.value
    ensures o.None? ==> s == ""
  {
    if o.Some? && o.value != "" then o.value else ""
  }

  function DelegationTypeText(t: DelegationType): string {
    if t == LongTerm then "长期委托" else "单次委托"
  }

  /** `getStatusText` */
  function LetterStatusText(status: Option<LetterStatus>): (text: string)
    ensures status.None? <==> text == ""
  {
    if status.None? then ""
    else match status.value
      case Initiated => "已发起"
      case Confirmed => "已确认"
      case Rejected => "已拒绝"
      case Expired => "已过期"
      case Terminated => "已终止"
  }

  /** `getAgreementStatusText` */
  function AgreementStatusText(status: Option<AgreementStatus>): (text: string)
    ensures status.None? <==> text == ""
  {
    if status.None? then ""
    else match status.value
      case PendingConfirmation => "待确认"
      case SentToCustoms => "已发海关"
      case ReadyForDeclaration => "待申报"
      case AgreementRejected => "已拒绝"
      case InUse => "正使用"
      case UsedByCustoms => "海关已用"
      case AgreementExpired => "已过期"
      case CancellationPending => "撤销待确认"
      case CancellationConfirmed => "撤销已确认"
      case Cancelled => "撤销成功"
      case CreationFailed => "新增失败"
      case CancellationFailed => "撤销失败"
  }

  /** Different statuses get different labels. */
  lemma StatusTextsAreDistinct(s: LetterStatus, t: LetterStatus, a: AgreementStatus, b: AgreementStatus)
    ensures s != t ==> LetterStatusText(Some(s)) != LetterStatusText(Some(t))
    ensures a != b ==> AgreementStatusText(Some(a)) != AgreementStatusText(Some(b))
  {
  }

  function LabelRow(caption: string, value: string): Row {
    [Str(caption), Str(value)]
  }

  /** A row of the letter sheet: at most a caption and a text value. */
  predicate LetterRow(r: Row) {
    |r| <= 2 && (|r| == 2 ==> r[1].Str?)
  }

  /** The heading and five label rows describing one party of the letter. */
  function PartyRows(heading: string, name: string, code: string, credit: string, signer: string, phone: string)
    : (rows: seq<Row>)
    ensures |rows| == 6 && rows[0] == [Str(heading)]
    ensures forall i :: 1 <= i < 6 ==> |rows[i]| == 2
    ensures rows[1][1] == Str(name) && rows[2][1] == Str(code) && rows[3][1] == Str(credit)
    ensures rows[4][1] == Str(signer) && rows[5][1] == Str(phone)
    ensures forall i :: 0 <= i < |rows| ==> LetterRow(rows[i])
  {
    [
      [Str(heading)],
      LabelRow("企业名称", name),
      LabelRow("海关编码", code),
      LabelRow("统一社会信用代码", credit),
      LabelRow("授权签字人", signer),
      LabelRow("联系电话", phone)
    ]
  }

  /** The heading and five label rows of the delegation relation. */
  function RelationRows(l: DelegationLetter): (rows: seq<Row>)
    ensures |rows| == 6 && rows[0] == [Str("三、委托关系")]
    ensures forall i :: 1 <= i < 6 ==> |rows[i]| == 2
    ensures rows[1][1] == Str(DelegationTypeText(l.delegationType))
    ensures rows[2][1] == Str(PeriodCode(l.validityPeriod) + "个月")
    ensures rows[3][1] == Str(Join(l.delegationContent, "；"))
    ensures rows[4][1] == Str(OrEmpty(l.signDate)) && rows[5][1] == Str(LetterStatusText(l.status))
    ensures forall i :: 0 <= i < |rows| ==> LetterRow(rows[i])
  {
    [
      [Str("三、委托关系")],
      LabelRow("委托类型", DelegationTypeText(l.delegationType)),
      LabelRow("委托有效期", PeriodCode(l.validityPeriod) + "个月"),
      LabelRow("委托内容", Join(l.delegationContent, "；")),
      LabelRow("签署日期", OrEmpty(l.signDate)),
      LabelRow("状态", LetterStatusText(l.status))
    ]
  }

  /** The `wsData` of `exportDelegationLetterToExcel`. */
  function LetterRows(l: DelegationLetter): (rows: seq<Row>)
    ensures |rows| == 22
    ensures rows[0] == [Str("电子代理报关委托书")]
    ensures rows[1] == [] && rows[8] == [] && rows[15] == []
    ensures forall i :: 0 <= i < |rows| ==> LetterRow(rows[i])
  {
    var client := PartyRows("一、委托方信息", OrEmpty(l.clientCompanyName), l.clientCustomsCode,
      OrEmpty(l.clientSocialCreditCode), OrEmpty(l.clientAuthorizedSigner), OrEmpty(l.clientContactPhone));
    var agent := PartyRows("二、被委托方信息", OrEmpty(l.agentCompanyName), OrEmpty(l.agentCustomsCode),
      OrEmpty(l.agentSocialCreditCode), OrEmpty(l.agentAuthorizedSigner), OrEmpty(l.agentContactPhone));
    var top: seq<Row> := [[Str("电子代理报关委托书")], []];
    var gap: seq<Row> := [[]];
    var relation := RelationRows(l);
    LetterRowsAppend(top, client);
    LetterRowsAppend(top + client, gap);
    LetterRowsAppend(top + client + gap, agent);
    LetterRowsAppend(top + client + gap + agent, gap);
    LetterRowsAppend(top + client + gap + agent + gap, relation);
    top + client + gap + agent + gap + relation
  }

  lemma LetterRowsAppend(a: seq<Row>, b: seq<Row>)
    requires forall i :: 0 <= i < |a| ==> LetterRow(a[i])
    requires forall i :: 0 <= i < |b| ==> LetterRow(b[i])
    ensures forall i :: 0 <= i < |a + b| ==> LetterRow((a + b)[i])
  {
  }

  /** Each field of the letter appears at its fixed place; a missing one as an empty text. */
  lemma LetterRowsShowFields(l: DelegationLetter)
    ensures LetterRows(l)[3][1] == Str(l.clientCompanyName.GetOr(""))
    ensures LetterRows(l)[4][1] == Str(l.clientCustomsCode)
    ensures LetterRows(l)[5][1] == Str(l.clientSocialCreditCode.GetOr(""))
    ensures LetterRows(l)[6][1] == Str(l.clientAuthorizedSigner.GetOr(""))
    ensures LetterRows(l)[7][1] == Str(l.clientContactPhone.GetOr(""))
    ensures LetterRows(l)[10][1] == Str(l.agentCompanyName.GetOr(""))
    ensures LetterRows(l)[11][1] == Str(l.agentCustomsCode.GetOr(""))
    ensures LetterRows(l)[12][1] == Str(l.agentSocialCreditCode.GetOr(""))
    ensures LetterRows(l)[13][1] == Str(l.agentAuthorizedSigner.GetOr(""))
    ensures LetterRows(l)[14][1] == Str(l.agentContactPhone.GetOr(""))
    ensures LetterRows(l)[17][1] == Str("长期委托") <==> l.delegationType == LongTerm
    ensures LetterRows(l)[18][1] == Str(PeriodCode(l.validityPeriod) + "个月")
    ensures LetterRows(l)[19][1] == Str(Join(l.delegationContent, "；"))
    ensures LetterRows(l)[20][1] == Str(l.signDate.GetOr(""))
    ensures LetterRows(l)[21][1] == Str("") <==> l.status.None?
  {
  }

  const AgreementHeaders: seq<string> := [
    "序号", "主要货物名称", "HS编码", "数量", "单位", "总值", "币种", "贸易方式", "原产地", "进出口日期", "状态"]

  /** One data row of the agreement sheet. */
  function AgreementRow(a: DelegationAgreement): (row: Row)
    ensures |row| == |AgreementHeaders| == 11
    ensures row[0] == Num(a.serialNumber as real) && row[1] == Str(a.mainGoodsName) && row[2] == Str(a.hsCode)
    ensures row[3] == (if a.quantity.Some? && a.quantity.value != 0.0 then Num(a.quantity.value) else Str(""))
    ensures row[4] == Str(OrEmpty(a.unit)) && row[5] == Num(a.totalValue)
    ensures row[6] == Str(if a.currency.Some? && a.currency.value != "" then a.currency.value else "USD")
    ensures row[7] == Str(a.tradeMode) && row[8] == Str(a.originPlace) && row[9] == Str(a.importExportDate)
    ensures row[10] == Str(AgreementStatusText(a.agreementStatus))
  {
    [
      Num(a.serialNumber as real),
      Str(a.mainGoodsName),
      Str(a.hsCode),
      if a.quantity.Some? && a.quantity.value != 0.0 then Num(a.quantity.value) else Str(""),
      Str(OrEmpty(a.unit)),
      Num(a.totalValue),
      Str(if a.currency.Some? && a.currency.value != "" then a.currency.value else "USD"),
      Str(a.tradeMode),
      Str(a.originPlace),
      Str(a.importExportDate),
      Str(AgreementStatusText(a.agreementStatus))
    ]
  }

  function HeaderRow(): Row {
    seq(|AgreementHeaders|, i requires 0 <= i < |AgreementHeaders| => Str(AgreementHeaders[i]))
  }

  /** The `wsData` of `exportDelegationAgreementsToExcel`: title, blank row, header, then one row per agreement. */
  function AgreementRows(agreements: seq<DelegationAgreement>): (rows: seq<Row>)
    ensures |rows| == |agreements| + 3
    ensures rows[0] == [Str("电子代理报关委托协议")] && rows[1] == [] && |rows[2]| == 11
    ensures forall j :: 0 <= j < 11 ==> rows[2][j] == Str(AgreementHeaders[j])
    ensures forall i :: 0 <= i < |agreements| ==> rows[i + 3] == AgreementRow(agreements[i])
    ensures forall i :: 2 <= i < |rows| ==> |rows[i]| == 11
  {
    [[Str("电子代理报关委托协议")], [], HeaderRow()]
      + seq(|agreements|, i requires 0 <= i < |agreements| => AgreementRow(agreements[i]))
  }

  /**
   * The agreement sheet of mapped goods numbers its data rows 1..N and labels each
   * as pending confirmation.
   */
  lemma ExportedAgreementsNumbered(data: MergedData, today: string) returns (rows: seq<Row>)
    ensures rows == AgreementRows(Mapper.MapToDelegationAgreements(data, today).result)
    ensures forall i :: 3 <= i < |rows| ==>
      && rows[i][0] == Num((i - 2) as real)
      && rows[i][10] == Str("待确认")
  {
    rows := AgreementRows(Mapper.MapToDelegationAgreements(data, today).result);
  }
}

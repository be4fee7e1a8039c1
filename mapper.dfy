/**
 * Mapping of the merged record onto one delegation letter and one delegation agreement
 * per goods line, with the warnings that tell what was missing. The current date is a parameter.
 */
module Mapper {
  import opened Wrappers
  import opened Strings
  import opened Extractor
  import opened Merger
  import opened DelegationTypes

  const NoCustomerWarning := "缺少客户信息，委托方字段将为空"
  const NoEnterpriseWarning := "缺少企业信息，被委托方字段将为空"
  const NoGoodsWarning := "缺少商品明细，无法生成委托协议"
  const NoDeclarationWarning := "缺少核注清单信息，贸易方式和进出口日期使用默认值"
  const DefaultTradeMode := "一般贸易"
  const DefaultCurrency := "USD"
  const UnknownOrigin := "未知"

  /** The five things the agent is entrusted with by default. */
  const DefaultContent: seq<string> := [
    "办理进出口货物的报关、报检手续",
    "代缴相关税费",
    "办理海关查验",
    "提交或修改报关单证",
    "签收海关法律文书"]

  function ManyCustomersWarning(n: nat): (w: string)
    ensures w != NoCustomerWarning && w != NoEnterpriseWarning
  {
    assert ("发现多个客户（" + NatToString(n) + "个），将使用第一个客户作为委托方")[0] == '发';
    "发现多个客户（" + NatToString(n) + "个），将使用第一个客户作为委托方"
  }

  datatype Mapped<T> = Mapped(result: T, warnings: seq<string>)

  /** The client: the first customer, when there is one. */
  function Client(data: ExtractedData): (c: Option<CustomerInfo>)
    ensures c.Some? <==> data.customers.Some? && |data.customers.value| > 0
    ensures c.Some? ==> c.value == data.customers.value[0]
  {
    if data.customers.None? || |data.customers.value| == 0 then None else Some(data.customers.value[0])
  }

  /** `mapToDelegationLetter` */
  function MapToDelegationLetter(data: MergedData, today: string): (r: Mapped<DelegationLetter>)
    ensures |r.warnings| <= 2
    ensures (NoCustomerWarning in r.warnings) <==> Client(data.data).None?
    ensures (NoEnterpriseWarning in r.warnings) <==> data.data.enterprise.None?
    ensures r.warnings == [] <==>
      data.data.customers.Some? && |data.data.customers.value| == 1 && data.data.enterprise.Some?
    ensures data.data.customers.Some? && |data.data.customers.value| > 1 ==>
      r.warnings[0] == ManyCustomersWarning(|data.data.customers.value|)
    ensures data.data.customers.None? || |data.data.customers.value| <= 1 ==>
      forall n :: ManyCustomersWarning(n) !in r.warnings
    ensures |r.warnings| ==
      (if data.data.customers.None? || |data.data.customers.value| != 1 then 1 else 0)
      + (if data.data.enterprise.None? then 1 else 0)
    ensures Client(data.data).None? ==> r.warnings[0] == NoCustomerWarning
    ensures data.data.enterprise.None? ==> r.warnings[|r.warnings| - 1] == NoEnterpriseWarning
  {
    var d := data.data;
    var client := Client(d);
    var clientWarnings :=
      if client.None? then [NoCustomerWarning]
      else if |d.customers.value| > 1 then [ManyCustomersWarning(|d.customers.value|)]
      else [];
    var agentWarnings := if d.enterprise.None? then [NoEnterpriseWarning] else [];
    var letter := DelegationLetter(
      clientSocialCreditCode := if client.Some? then client.value.socialCreditCode else None,
      clientCustomsCode := if client.Some? then client.value.customsCode else "",
      clientCompanyName := if client.Some? then Some(client.value.name) else None,
      clientAuthorizedSigner := None,
      clientContactPhone := None,
      agentSocialCreditCode := if d.enterprise.Some? then Some(d.enterprise.value.socialCreditCode) else None,
      agentCustomsCode := if d.enterprise.Some? then Some(d.enterprise.value.customsCode) else None,
      agentCompanyName := if d.enterprise.Some? then Some(d.enterprise.value.name) else None,
      agentAuthorizedSigner := if d.enterprise.Some? then d.enterprise.value.legalPerson else None,
      agentContactPhone := if d.enterprise.Some? then d.enterprise.value.phone else None,
      delegationType := LongTerm,
      validityPeriod := Months12,
      delegationContent := DefaultContent,
      signDate := Some(today),
      status := Some(Initiated));
    Mapped(letter, clientWarnings + agentWarnings)
  }

  /** The client fields come from the first customer, the agent fields from the enterprise record. */
  lemma LetterFields(data: MergedData, today: string)
    ensures var l := MapToDelegationLetter(data, today).result;
      && (Client(data.data).None? ==>
            l.clientCustomsCode == "" && l.clientCompanyName.None? && l.clientSocialCreditCode.None?)
      && (Client(data.data).Some? ==>
            l.clientCustomsCode == Client(data.data).value.customsCode
            && l.clientCompanyName == Some(Client(data.data).value.name)
            && l.clientSocialCreditCode == Client(data.data).value.socialCreditCode)
      && (data.data.enterprise.Some? ==>
            l.agentCompanyName == Some(data.data.enterprise.value.name)
            && l.agentCustomsCode == Some(data.data.enterprise.value.customsCode)
            && l.agentSocialCreditCode == Some(data.data.enterprise.value.socialCreditCode)
            && l.agentAuthorizedSigner == data.data.enterprise.value.legalPerson
            && l.agentContactPhone == data.data.enterprise.value.phone)
      && (data.data.enterprise.None? ==>
            l.agentCompanyName.None? && l.agentAuthorizedSigner.None? && l.agentCustomsCode.None?
            && l.agentSocialCreditCode.None? && l.agentContactPhone.None?)
      && l.clientAuthorizedSigner.None? && l.clientContactPhone.None?
      && l.delegationType == LongTerm && PeriodCode(l.validityPeriod) == "12"
      && l.delegationContent == DefaultContent && |l.delegationContent| == 5
      && l.signDate == Some(today) && l.status == Some(Initiated)
  {
  }

  /** `data.declaration?.supervisionMode || '一般贸易'` */
  function TradeMode(d: ExtractedData): (m: string)
    ensures m != ""
    ensures d.declaration.Some? && d.declaration.value.supervisionMode != "" ==> m == d.declaration.value.supervisionMode
    ensures d.declaration.None? || d.declaration.value.supervisionMode == "" ==> m == DefaultTradeMode
  {
    if d.declaration.Some? && d.declaration.value.supervisionMode != "" then d.declaration.value.supervisionMode
    else DefaultTradeMode
  }

  /** `data.declaration?.entryDate || today` */
  function ImportExportDate(d: ExtractedData, today: string): (date: string)
    ensures d.declaration.None? ==> date == today
    ensures d.declaration.Some? && Filled(d.declaration.value.entryDate) ==> date == d.declaration.value.entryDate.value
    ensures d.declaration.Some? && !Filled(d.declaration.value.entryDate) ==> date == today
  {
    if d.declaration.Some? && Filled(d.declaration.value.entryDate) then d.declaration.value.entryDate.value
    else today
  }

  /** The agreement for goods line `index` (counted from 0). */
  function AgreementOf(item: GoodsItem, index: nat, tradeMode: string, date: string): (a: DelegationAgreement)
    ensures a.serialNumber == index + 1
    ensures a.totalValue == item.totalPrice.GetOr(0.0)
    ensures a.currency.Some? && a.currency.value != "" && a.originPlace != ""
    ensures Filled(item.currency) ==> a.currency == item.currency
    ensures !Filled(item.currency) ==> a.currency == Some(DefaultCurrency)
    ensures Filled(item.origin) ==> a.originPlace == item.origin.value
    ensures !Filled(item.origin) ==> a.originPlace == UnknownOrigin
    ensures a.mainGoodsName == item.goodsName && a.hsCode == item.hsCode
    ensures a.quantity == item.quantity && a.unit == item.unit
    ensures a.tradeMode == tradeMode && a.importExportDate == date && a.agreementStatus == Some(PendingConfirmation)
  {
    DelegationAgreement(
      serialNumber := index + 1,
      mainGoodsName := item.goodsName,
      hsCode := item.hsCode,
      totalValue := if item.totalPrice.Some? && item.totalPrice.value != 0.0 then item.totalPrice.value else 0.0,
      currency := Some(if Filled(item.currency) then item.currency.value else DefaultCurrency),
      quantity := item.quantity,
      unit := item.unit,
      tradeMode := tradeMode,
      originPlace := if Filled(item.origin) then item.origin.value else UnknownOrigin,
      importExportDate := date,
      agreementStatus := Some(PendingConfirmation))
  }

  /** `mapToDelegationAgreements` */
  function MapToDelegationAgreements(data: MergedData, today: string): (r: Mapped<seq<DelegationAgreement>>)
    ensures data.data.goods.None? || |data.data.goods.value| == 0 ==>
      r.result == [] && r.warnings == [NoGoodsWarning]
    ensures data.data.goods.Some? && |data.data.goods.value| > 0 ==>
      && |r.result| == |data.data.goods.value|
      && (r.warnings == [] <==> data.data.declaration.Some?)
      && (data.data.declaration.None? ==> r.warnings == [NoDeclarationWarning])
    ensures forall i :: 0 <= i < |r.result| ==>
      && r.result[i].serialNumber == i + 1
      && r.result[i].mainGoodsName == data.data.goods.value[i].goodsName
      && r.result[i].hsCode == data.data.goods.value[i].hsCode
      && r.result[i].quantity == data.data.goods.value[i].quantity
      && r.result[i].unit == data.data.goods.value[i].unit
      && r.result[i].tradeMode == TradeMode(data.data)
      && r.result[i].importExportDate == ImportExportDate(data.data, today)
      && r.result[i].agreementStatus == Some(PendingConfirmation)
      && r.result[i].totalValue == data.data.goods.value[i].totalPrice.GetOr(0.0)
      && r.result[i].currency == (if Filled(data.data.goods.value[i].currency) then data.data.goods.value[i].currency
                                  else Some(DefaultCurrency))
      && r.result[i].originPlace == (if Filled(data.data.goods.value[i].origin) then data.data.goods.value[i].origin.value
                                     else UnknownOrigin)
  {
    var d := data.data;
    if d.goods.None? || |d.goods.value| == 0 then Mapped([], [NoGoodsWarning])
    else
      var goods := d.goods.value;
      var tradeMode := TradeMode(d);
      var date := ImportExportDate(d, today);
      var agreements := seq(|goods|, i requires 0 <= i < |goods| => AgreementOf(goods[i], i, tradeMode, date));
      Mapped(agreements, if d.declaration.None? then [NoDeclarationWarning] else [])
  }

  /** Serial numbers run 1..N without gaps or repeats. */
  lemma SerialNumbersAreOneToN(data: MergedData, today: string)
    ensures forall i, j :: 0 <= i < j < |MapToDelegationAgreements(data, today).result| ==>
      MapToDelegationAgreements(data, today).result[i].serialNumber < MapToDelegationAgreements(data, today).result[j].serialNumber
    ensures forall a :: a in MapToDelegationAgreements(data, today).result ==>
      1 <= a.serialNumber <= |MapToDelegationAgreements(data, today).result|
  {
    var r := MapToDelegationAgreements(data, today).result;
    forall a | a in r
      ensures 1 <= a.serialNumber <= |r|
    {
      var i :| 0 <= i < |r| && r[i] == a;
    }
  }

  datatype MappingResult = MappingResult(
    delegationLetter: DelegationLetter,
    delegationAgreements: seq<DelegationAgreement>,
    warnings: seq<string>)

  /** `mapDelegationData`: the letter's warnings come first, then the agreements'. */
  function MapDelegationData(data: MergedData, today: string): (r: MappingResult)
    ensures r.delegationLetter == MapToDelegationLetter(data, today).result
    ensures r.delegationAgreements == MapToDelegationAgreements(data, today).result
    ensures |r.warnings| <= 3
    ensures |r.warnings| == |MapToDelegationLetter(data, today).warnings| + |MapToDelegationAgreements(data, today).warnings|
    ensures r.warnings[..|MapToDelegationLetter(data, today).warnings|] == MapToDelegationLetter(data, today).warnings
    ensures r.warnings[|MapToDelegationLetter(data, today).warnings|..] == MapToDelegationAgreements(data, today).warnings
  {
    var letter := MapToDelegationLetter(data, today);
    var agreements := MapToDelegationAgreements(data, today);
    MappingResult(letter.result, agreements.result, letter.warnings + agreements.warnings)
  }

  /**
   * The mapping warns about nothing exactly when there is one customer, an enterprise,
   * at least one goods line and a manifest.
   */
  lemma NoWarningsIffComplete(data: MergedData, today: string)
    ensures MapDelegationData(data, today).warnings == [] <==>
      && data.data.customers.Some? && |data.data.customers.value| == 1
      && data.data.enterprise.Some?
      && data.data.goods.Some? && |data.data.goods.value| > 0
      && data.data.declaration.Some?
  {
  }

  /** A merged record always carries a customer list, so the client warning means the merge found no customer. */
  lemma MergedClientWarning(nt: Cells.NumberText, files: seq<FileData>, today: string)
    ensures (NoCustomerWarning in MapToDelegationLetter(MergeExcelData(nt, files), today).warnings) <==>
      |MergeExcelData(nt, files).data.customers.value| == 0
  {
  }
}

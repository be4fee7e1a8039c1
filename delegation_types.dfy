/**
 * The two documents of an electronic customs-brokerage delegation: the delegation letter
 * (client, agent and the relation between them) and one delegation agreement per goods line.
 * Only the fields the mapping and the export read or write are kept.
 */
module DelegationTypes {
  import opened Wrappers

  datatype DelegationType = Single | LongTerm

  datatype ValidityPeriod = Months3 | Months6 | Months9 | Months12

  /** The period as the letter stores it: `'3' | '6' | '9' | '12'`. */
  function PeriodCode(p: ValidityPeriod): (s: string)
    ensures s in ["3", "6", "9", "12"]
  {
    match p
    case Months3 => "3"
    case Months6 => "6"
    case Months9 => "9"
    case Months12 => "12"
  }

  lemma PeriodCodeInjective(p: ValidityPeriod, q: ValidityPeriod)
    ensures PeriodCode(p) == PeriodCode(q) ==> p == q
  {
  }

  datatype LetterStatus = Initiated | Confirmed | Rejected | Expired | Terminated

  datatype AgreementStatus =
    | PendingConfirmation
    | SentToCustoms
    | ReadyForDeclaration
    | AgreementRejected
    | InUse
    | UsedByCustoms
    | AgreementExpired
    | CancellationPending
    | CancellationConfirmed
    | Cancelled
    | CreationFailed
    | CancellationFailed

  datatype DelegationLetter = DelegationLetter(
    clientSocialCreditCode: Option<string>,
    clientCustomsCode: string,
    clientCompanyName: Option<string>,
    clientAuthorizedSigner: Option<string>,
    clientContactPhone: Option<string>,
    agentSocialCreditCode: Option<string>,
    agentCustomsCode: Option<string>,
    agentCompanyName: Option<string>,
    agentAuthorizedSigner: Option<string>,
    agentContactPhone: Option<string>,
    delegationType: DelegationType,
    validityPeriod: ValidityPeriod,
    delegationContent: seq<string>,
    signDate: Option<string>,
    status: Option<LetterStatus>)

  datatype DelegationAgreement = DelegationAgreement(
    serialNumber: nat,
    mainGoodsName: string,
    hsCode: string,
    totalValue: real,
    currency: Option<string>,
    quantity: Option<real>,
    unit: Option<string>,
    tradeMode: string,
    originPlace: string,
    importExportDate: string,
    agreementStatus: Option<AgreementStatus>)
}

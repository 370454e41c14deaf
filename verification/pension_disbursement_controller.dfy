/** The disbursement decision: compute the authoritative pension, validate a
    request against the pensioner's record, and answer the HTTP call. */
module PensionDisbursementController {
  import opened Models
  import opened BankCharges

  /** The message sent when the pensioner's record cannot be fetched. */
  const NotFoundMessage: string := "Unable to fetch Pensioner detail."

  /** Status code for an approved disbursement. */
  const Approved: int := 10
  /** Status code for a rejected disbursement. */
  const Rejected: int := 21

  /** The responses the action can give. A rejected disbursement is still an
      `Ok`: the verdict travels in the status code, not in the transport status.
      `Faulted` is the action ending in an unhandled NullReferenceException. */
  datatype ActionResult =
    | BadRequestEmpty
    | BadRequestMessage(message: string)
    | Ok(processPensionStatusCode: int)
    | Faulted

  /** What one call does: the response, and the identifiers it asked the
      upstream repository for, in order. */
  datatype Disbursal = Disbursal(response: ActionResult, lookups: seq<string>)

  /** How validation ends: with a verdict, or by dereferencing a null bank detail. */
  datatype Validation = Returned(valid: bool) | NullReference

  /** Payout rate: four fifths of the salary for the pensioner themself, half
      for the family. */
  function Rate(t: PensionType): (rate: real)
    ensures 0.0 < rate < 1.0
    ensures t == Self <==> rate == 0.8
    ensures t == Family <==> rate == 0.5
  {
    match t
    case Self => 0.8
    case Family => 0.5
  }

  /** The authoritative pension: the rate applied to the salary, plus allowances. */
  function CalculatePension(salaryEarned: real, allowances: real, pensionType: PensionType): (pension: real)
    ensures salaryEarned >= 0.0 ==> allowances <= pension <= salaryEarned + allowances
    ensures salaryEarned > 0.0 ==> allowances < pension < salaryEarned + allowances
    ensures pensionType == Self ==> pension == 0.8 * salaryEarned + allowances
    ensures pensionType == Family ==> pension == 0.5 * salaryEarned + allowances
  {
    Rate(pensionType) * salaryEarned + allowances
  }

  /** The pension the record entitles its holder to. */
  function EntitledPension(detail: PensionerDetail): real
  {
    CalculatePension(detail.salaryEarned, detail.allowances, detail.pensionType)
  }

  /** Declarative reading of an acceptable request: both amounts positive, the
      record names a bank, the charge is exactly the table's entry for that
      bank and the amount exactly the rate applied to the salary plus allowances. */
  ghost predicate Acceptable(input: ProcessPensionInput, detail: PensionerDetail)
  {
    && input.pensionAmount > 0.0
    && input.bankServiceCharge > 0.0
    && detail.bankDetail.Some?
    && input.bankServiceCharge == ChargeFor(detail.bankDetail.value.bankType)
    && input.pensionAmount == Rate(detail.pensionType) * detail.salaryEarned + detail.allowances
  }

  /** The request gets past the positivity check and so reaches the bank
      detail, which is null. */
  ghost predicate ReachesNullBankDetail(input: ProcessPensionInput, detail: PensionerDetail)
  {
    input.bankServiceCharge > 0.0 && input.pensionAmount > 0.0 && detail.bankDetail.None?
  }

  /** Ordered short-circuit checks; the first one that fails rejects. The
      positivity check comes before the bank detail is read, so only a request
      that passes it can fault on a missing bank detail. */
  function ValidatePension(input: ProcessPensionInput, detail: PensionerDetail): (v: Validation)
    ensures input.bankServiceCharge <= 0.0 || input.pensionAmount <= 0.0 ==> v == Returned(false)
    ensures v == NullReference <==> ReachesNullBankDetail(input, detail)
    ensures (detail.bankDetail.Some? && input.bankServiceCharge != ChargeFor(detail.bankDetail.value.bankType))
              ==> v == Returned(false)
    ensures input.pensionAmount != EntitledPension(detail) ==> v != Returned(true)
    ensures v == Returned(true) <==> Acceptable(input, detail)
  {
    if input.bankServiceCharge <= 0.0 || input.pensionAmount <= 0.0 then
      Returned(false)
    else
      match detail.bankDetail
      case None => NullReference
      case Some(bankDetail) =>
        if input.bankServiceCharge != ChargeFor(bankDetail.bankType) then
          Returned(false)
        else if input.pensionAmount != EntitledPension(detail) then
          Returned(false)
        else
          Returned(true)
  }

  /** The action, as called. `input` is None for a null input; `repo` is the upstream
      lookup by Aadhar number, answering None when the record cannot be had. */
  function DisbursePension(input: Option<ProcessPensionInput>, repo: string -> Option<PensionerDetail>): (d: Disbursal)
    ensures |d.lookups| <= 1
    ensures input.None? <==> d.response == BadRequestEmpty
    ensures input.None? ==> d.lookups == []
    ensures input.Some? ==> d.lookups == [input.value.aadharNumber]
    ensures (input.Some? && repo(input.value.aadharNumber).None?)
              <==> d.response == BadRequestMessage(NotFoundMessage)
    ensures d.response.BadRequestMessage? ==> d.response.message == NotFoundMessage
    ensures (d.response == Faulted)
              <==> (&& input.Some?
                    && repo(input.value.aadharNumber).Some?
                    && ReachesNullBankDetail(input.value, repo(input.value.aadharNumber).value))
    ensures (input.Some? && repo(input.value.aadharNumber).Some?)
              <==> (d.response.Ok? || d.response == Faulted)
    ensures d.response.Ok? ==> d.response.processPensionStatusCode in {Approved, Rejected}
    ensures (d.response == Ok(Approved))
              <==> (&& input.Some?
                    && repo(input.value.aadharNumber).Some?
                    && Acceptable(input.value, repo(input.value.aadharNumber).value))
  {
    match input
    case None => Disbursal(BadRequestEmpty, [])
    case Some(request) =>
      var pensionerDetail := repo(request.aadharNumber);
      match pensionerDetail
      case None => Disbursal(BadRequestMessage(NotFoundMessage), [request.aadharNumber])
      case Some(detail) =>
        match ValidatePension(request, detail)
        case NullReference => Disbursal(Faulted, [request.aadharNumber])
        case Returned(validInput) =>
          var processPensionStatusCode := if validInput then Approved else Rejected;
          Disbursal(Ok(processPensionStatusCode), [request.aadharNumber])
  }
}

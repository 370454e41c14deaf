/** Records exchanged by the pension disbursement endpoint.

    Money values are `real`: the service stores them as IEEE-754 doubles,
    whose rounding this model abstracts away (the rates 0.8 and 0.5 are
    exact here). */
module Models {

  /** A value that may be missing; `None` is the service's null reference. */
  datatype Option<+T> = None | Some(value: T)

  /** Whose pension it is; decides the payout rate. */
  datatype PensionType = Self | Family

  /** Kind of bank the pension is paid into; decides the service charge. */
  datatype BankType = Public | Private

  datatype BankDetail = BankDetail(bankType: BankType)

  /** The authoritative record returned by the upstream pensioner-detail service.
      Its bank detail is a reference-typed property in the service and may be null. */
  datatype PensionerDetail = PensionerDetail(
    salaryEarned: real,
    allowances: real,
    pensionType: PensionType,
    bankDetail: Option<BankDetail>)

  /** The body of a disbursement request, as claimed by the caller. */
  datatype ProcessPensionInput = ProcessPensionInput(
    aadharNumber: string,
    pensionAmount: real,
    bankServiceCharge: real)
}

/** Properties of the disbursement decision that relate several calls, and
    the controller's test scenarios stated as lemmas. */
module DisbursementProperties {
  import opened Models
  import opened BankCharges
  import opened PensionDisbursementController

  /** A lookup that answers every identifier with the same record. */
  function AlwaysFinds(detail: PensionerDetail): string -> Option<PensionerDetail>
  {
    _ => Some(detail)
  }

  /** The response to a request for an Aadhar number whose record is `detail`. */
  function Scenario(pensionAmount: real, bankServiceCharge: real, salaryEarned: real, allowances: real,
                    pensionType: PensionType, bankType: BankType): ActionResult
  {
    var input := ProcessPensionInput("aadhar_Number", pensionAmount, bankServiceCharge);
    var detail := PensionerDetail(salaryEarned, allowances, pensionType, Some(BankDetail(bankType)));
    DisbursePension(Some(input), AlwaysFinds(detail)).response
  }

  /** A null input is refused with an empty bad request, and the repository
      is never consulted, whatever it would have answered. */
  lemma NullInputIsBadRequest(repo: string -> Option<PensionerDetail>)
    ensures DisbursePension(None, repo) == Disbursal(BadRequestEmpty, [])
  {
  }

  /** A record that cannot be fetched yields the fixed bad-request message. */
  lemma NotFoundIsBadRequestWithMessage()
    ensures DisbursePension(Some(ProcessPensionInput("123412341234", 0.0, 0.0)), _ => None).response
            == BadRequestMessage("Unable to fetch Pensioner detail.")
  {
  }

  /** Salary 100000 with allowances 20000 pays 100000 to the pensioner and
      70000 to the family. */
  lemma CalculatePensionExamples()
    ensures CalculatePension(100000.0, 20000.0, Self) == 100000.0
    ensures CalculatePension(100000.0, 20000.0, Family) == 70000.0
  {
  }

  /** The pensioner's own rate pays strictly more than the family's on any
      positive salary, and the two agree only on a zero salary. */
  lemma SelfPaysMoreThanFamily(salaryEarned: real, allowances: real)
    ensures salaryEarned > 0.0 ==>
              CalculatePension(salaryEarned, allowances, Self) > CalculatePension(salaryEarned, allowances, Family)
    ensures (CalculatePension(salaryEarned, allowances, Self) == CalculatePension(salaryEarned, allowances, Family))
              <==> salaryEarned == 0.0
  {
  }

  /** The requests the controller's tests expect to be approved for a
      pensioner drawing their own pension. */
  lemma ApprovedSelfScenarios()
    ensures Scenario(100000.0, 500.0, 100000.0, 20000.0, Self, Public) == Ok(Approved)
    ensures Scenario(100000.0, 550.0, 100000.0, 20000.0, Self, Private) == Ok(Approved)
    ensures Scenario(229000.0, 500.0, 230000.0, 45000.0, Self, Public) == Ok(Approved)
  {
  }

  /** The requests the controller's tests expect to be approved for a
      family pension. */
  lemma ApprovedFamilyScenarios()
    ensures Scenario(70000.0, 500.0, 100000.0, 20000.0, Family, Public) == Ok(Approved)
    ensures Scenario(70000.0, 550.0, 100000.0, 20000.0, Family, Private) == Ok(Approved)
    ensures Scenario(130000.0, 550.0, 160000.0, 50000.0, Family, Private) == Ok(Approved)
  {
  }

  /** The requests the controller's tests expect to be rejected because the
      claimed charge is not the bank's: still an `Ok`, carrying code 21. */
  lemma RejectedForChargeScenarios()
    ensures Scenario(100000.0, 400.0, 100000.0, 20000.0, Self, Public) == Ok(Rejected)
    ensures Scenario(130000.0, 130.0, 12311.0, 50000.0, Family, Private) == Ok(Rejected)
    ensures Scenario(229030.0, 510.0, 230000.0, 45000.0, Self, Public) == Ok(Rejected)
  {
    ChargeValues();
  }

  /** The requests the controller's tests expect to be rejected because the
      claimed amount is not the computed pension. */
  lemma RejectedForAmountScenarios()
    ensures Scenario(100000.0, 550.0, 41211.0, 20000.0, Self, Private) == Ok(Rejected)
    ensures Scenario(131231.0, 500.0, 100000.0, 20000.0, Family, Public) == Ok(Rejected)
    ensures Scenario(710000.0, 550.0, 4121412.0, 20000.0, Self, Private) == Ok(Rejected)
  {
  }

  /** A charge that is right for another kind of bank is refused, whatever
      the amount. */
  lemma OtherBanksChargeRejected(input: ProcessPensionInput, detail: PensionerDetail, b': BankType)
    requires detail.bankDetail.Some? && b' != detail.bankDetail.value.bankType
    requires input.bankServiceCharge == ChargeFor(b')
    ensures ValidatePension(input, detail) == Returned(false)
  {
    ChargesDistinct(detail.bankDetail.value.bankType, b');
  }

  /** A record that names no bank, such as one carrying only its Aadhar number:
      a request that fails the positivity check is still rejected with code 21,
      but one that passes it reaches the missing bank detail and faults. */
  lemma MissingBankDetailFaultsAfterPositivity(input: ProcessPensionInput, detail: PensionerDetail)
    requires detail.bankDetail.None?
    ensures DisbursePension(Some(input), AlwaysFinds(detail)).response
            == if input.bankServiceCharge > 0.0 && input.pensionAmount > 0.0 then Faulted else Ok(Rejected)
  {
  }

  /** For a given record at most one (amount, charge) pair is accepted. */
  lemma AcceptedRequestIsUnique(detail: PensionerDetail, i1: ProcessPensionInput, i2: ProcessPensionInput)
    requires ValidatePension(i1, detail) == Returned(true) && ValidatePension(i2, detail) == Returned(true)
    ensures detail.bankDetail.Some?
    ensures i1.pensionAmount == i2.pensionAmount == EntitledPension(detail)
    ensures i1.bankServiceCharge == i2.bankServiceCharge == ChargeFor(detail.bankDetail.value.bankType)
  {
  }

  /** Some request is accepted against a record exactly when the record names
      a bank and its entitled pension is positive; the accepted one claims
      that pension and the table's charge. */
  lemma AcceptableIffPositivePension(detail: PensionerDetail)
    ensures (exists input :: ValidatePension(input, detail) == Returned(true))
            <==> (detail.bankDetail.Some? && EntitledPension(detail) > 0.0)
  {
    if detail.bankDetail.Some? && EntitledPension(detail) > 0.0 {
      var claim := ProcessPensionInput("", EntitledPension(detail), ChargeFor(detail.bankDetail.value.bankType));
      assert ValidatePension(claim, detail) == Returned(true);
    }
  }

  /** The action can approve some request exactly when the repository holds
      some record that names a bank and has a positive entitled pension. */
  lemma ApprovalReachable(repo: string -> Option<PensionerDetail>)
    ensures (exists input :: DisbursePension(Some(input), repo).response == Ok(Approved))
            <==> (exists id :: && repo(id).Some?
                               && repo(id).value.bankDetail.Some?
                               && EntitledPension(repo(id).value) > 0.0)
  {
    if input :| DisbursePension(Some(input), repo).response == Ok(Approved) {
      var id := input.aadharNumber;
      assert repo(id).Some? && repo(id).value.bankDetail.Some? && EntitledPension(repo(id).value) > 0.0;
    }
    if id :| repo(id).Some? && repo(id).value.bankDetail.Some? && EntitledPension(repo(id).value) > 0.0 {
      var detail := repo(id).value;
      var input := ProcessPensionInput(id, EntitledPension(detail), ChargeFor(detail.bankDetail.value.bankType));
      assert ValidatePension(input, detail) == Returned(true);
      assert DisbursePension(Some(input), repo).response == Ok(Approved);
    }
  }
}

# Pension disbursement decision

A model of the `DisbursePension` action of the PensionDisbursementService
controller, as called with its input. The input is a disbursement request. It
holds an Aadhar number, the pension amount it wants paid and the bank service
charge it claims. The action fetches the pensioner's record from an upstream
repository and checks the request against it. The action answers a null input
with an empty bad request. A record that cannot be fetched gets a bad request
with a fixed message. Otherwise the answer is `Ok`: status code 10 if the
request validates and 21 if it does not. Among the declared bank types, the one
exception is a record without a bank detail. There a request that passes the
positivity check makes the action throw a NullReferenceException instead of
answering.

Validation is three ordered checks, and the first one that fails rejects:

1. both the amount and the charge must be strictly positive;
2. the charge must equal the fixed table entry for the record's bank type
   (`Public` 500, `Private` 550);
3. the amount must equal the rate times the salary plus allowances. The rate
   is 0.8 for a `Self` pension and 0.5 for a `Family` one.

Files:

- `models.dfy` (module `Models`): the request, the pensioner record (whose
  bank detail may be null), the two enumerations and an `Option` whose `None`
  is a null reference.
- `bank_charges.dfy` (module `BankCharges`): the charge table and its lookup.
- `pension_disbursement_controller.dfy` (module `PensionDisbursementController`):
  `CalculatePension`, `ValidatePension` and `DisbursePension` as pure functions.
  `ValidatePension` returns either a verdict or `NullReference`.
  `DisbursePension` answers `Faulted` when that exception escapes.
  Also the response datatype, and `Acceptable`, a declarative reading of a
  valid request that the ordered checks are proved equivalent to.
- `disbursement_properties.dfy` (module `DisbursementProperties`): properties
  that relate several calls, and the controller's test cases as lemmas.

The upstream lookup is a parameter `repo: string -> Option<PensionerDetail>`.
`DisbursePension` reports the identifiers it asked `repo` for. This makes
"a null input causes no lookup" and "one call makes at most one lookup"
statable. Money is `real`, so the rates 0.8 and 0.5 are exact.

## Model

| member | source | states |
|---|---|---|
| BankCharges.ChargeFor | PensionDisbursementService/Constants/BankCharges.cs:9-13 | every bank type is in the table; the entry is strictly positive and is 500 or 550, so a charge that matches the table always passes the positivity check |
| BankCharges.ChargesTotal | PensionDisbursementService/Constants/BankCharges.cs:9-13 | the table covers both bank types, so the lookup at controller line 57 never fails |
| BankCharges.ChargeValues | PensionDisbursementService/Constants/BankCharges.cs:11-12 | `Public` is charged 500 and `Private` 550 |
| BankCharges.ChargesDistinct | PensionDisbursementService/Constants/BankCharges.cs:11-12 | two bank types have the same charge only if they are the same type |
| PensionDisbursementController.Rate | PensionDisbursementService/Controllers/PensionDisbursementController.cs:71 | the rate is strictly between 0 and 1; it is 0.8 exactly for `Self` and 0.5 exactly for `Family` |
| PensionDisbursementController.CalculatePension | PensionDisbursementService/Controllers/PensionDisbursementController.cs:69-73 | a `Self` pension is 0.8 × salary + allowances and a `Family` one 0.5 × salary + allowances; for a non-negative salary the pension lies between the allowances and salary plus allowances, strictly so for a positive salary |
| PensionDisbursementController.ValidatePension | PensionDisbursementService/Controllers/PensionDisbursementController.cs:51-67 | a non-positive amount or charge is rejected, even when the bank detail is null; validation throws on a null bank detail exactly when the positivity check has passed; a charge other than the table's entry for the record's bank is rejected whatever the amount; an amount other than the computed pension is never accepted; and a request is accepted exactly when it meets the declarative `Acceptable` conditions |
| PensionDisbursementController.DisbursePension | PensionDisbursementService/Controllers/PensionDisbursementController.cs:26-49 | a null input, and only that, gives an empty bad request and no lookup; otherwise exactly one lookup is made, for the request's Aadhar number; a missing record, and only that, gives the fixed not-found message; a found record gives either `Ok` with code 10 or 21, or `Faulted`; `Faulted` comes exactly when validation reaches a null bank detail; code 10 comes exactly when the request is `Acceptable` for the looked-up record |
| DisbursementProperties.NullInputIsBadRequest | PensionDisbursementService.Tests/PensionDisbursementControllerTest.cs:37-44 | a null input to the action gives an empty bad request and no lookup, whatever the repository holds |
| DisbursementProperties.NotFoundIsBadRequestWithMessage | PensionDisbursementService.Tests/PensionDisbursementControllerTest.cs:47-60 | a repository that finds nothing gives a bad request whose body is exactly "Unable to fetch Pensioner detail." |
| DisbursementProperties.CalculatePensionExamples | PensionDisbursementService.Tests/PensionDisbursementControllerTest.cs:62-65 | salary 100000 with allowances 20000 pays 100000 for `Self` and 70000 for `Family` |
| DisbursementProperties.SelfPaysMoreThanFamily | PensionDisbursementService/Controllers/PensionDisbursementController.cs:69-73 | on a positive salary a `Self` pension exceeds a `Family` one; the two are equal exactly when the salary is zero |
| DisbursementProperties.ApprovedSelfScenarios | PensionDisbursementService.Tests/PensionDisbursementControllerTest.cs:62-67 | the test requests of rows 62, 63 and 67, for `Self` pensions, get `Ok` with code 10 |
| DisbursementProperties.ApprovedFamilyScenarios | PensionDisbursementService.Tests/PensionDisbursementControllerTest.cs:64-66 | the test requests of rows 64 to 66, for `Family` pensions, get `Ok` with code 10 |
| DisbursementProperties.RejectedForChargeScenarios | PensionDisbursementService.Tests/PensionDisbursementControllerTest.cs:96-101 | the test requests of rows 96, 100 and 101, whose charge is wrong for the bank, get `Ok` with code 21 |
| DisbursementProperties.RejectedForAmountScenarios | PensionDisbursementService.Tests/PensionDisbursementControllerTest.cs:97-99 | the test requests of rows 97 to 99, whose amount is not the computed pension, get `Ok` with code 21 |
| DisbursementProperties.OtherBanksChargeRejected | PensionDisbursementService/Controllers/PensionDisbursementController.cs:57-59 | a charge that is right for any other bank type than the record's is rejected whatever the amount |
| DisbursementProperties.MissingBankDetailFaultsAfterPositivity | PensionDisbursementService/Controllers/PensionDisbursementController.cs:53-57 | for every record with no bank detail, whatever its salary, allowances and pension type (the repository test sends one with only an Aadhar number), a request with a non-positive amount or charge still gets `Ok` with code 21, and any other request faults |
| DisbursementProperties.AcceptedRequestIsUnique | PensionDisbursementService/Controllers/PensionDisbursementController.cs:51-67 | two requests accepted against one record claim the same amount, the computed pension, and the same charge, the table's entry |
| DisbursementProperties.AcceptableIffPositivePension | PensionDisbursementService/Controllers/PensionDisbursementController.cs:51-73 | some request is accepted against a record exactly when the record has a bank detail and its computed pension is strictly positive |
| DisbursementProperties.ApprovalReachable | PensionDisbursementService/Controllers/PensionDisbursementController.cs:26-73 | the action answers code 10 to some request exactly when the repository holds some record that has a bank detail and a strictly positive computed pension |

## Left out

- IEEE-754 `double` arithmetic: the source computes `rate * salary + allowances` in doubles and compares two rounded doubles with `!=`. The model uses exact `real` arithmetic, and the two differ in both directions. The source can reject a request for the exact amount when the double product rounds away from it. It can also accept a request that is not the exact amount when that request rounds to the same double: for the record of test row 62, a request for 100000.000000000001 parses to 100000.0 and is approved, while the model rejects it.
- The repository `PensionerDetailRespository.GetPensionerDetailByAadhar`: the HTTP GET, the status check, the caught transport exceptions and the JSON deserialisation are I/O over libraries that are not part of this model. They become the `repo` parameter, whose `None` stands for every case where the repository returns null.
- A malformed success body: the source's deserialisation is outside its `try` and would throw. The `repo` parameter cannot express an exception, so this path is not modelled.
- PensionDisbursementController.DisbursePension: a null `AadharNumber` cannot be expressed, because a Dafny `string` is never null. The source would pass the null on to the repository, which builds a URL from it, so it acts like one more identifier given to `repo`.
- PensionDisbursementController.DisbursePension: request binding is not modelled. The controller carries `[ApiController]`, so the framework's model binding rejects an absent, empty or unparsable POST body with its own 400 response before the action runs. The null-input branch is therefore reached only when the action is called directly. The model covers the action as called.
- PensionDisbursementController.DisbursePension: `Faulted` records that the action ends in a NullReferenceException. What the web framework then sends the caller is not part of this model.
- Logging, `async`/`Task` and ASP.NET result types: logging does not affect the result. The awaited lookup is modelled as a plain call. `BadRequestResult`, `BadRequestObjectResult` and `OkObjectResult` with `ProcessPensionResponse` become the `ActionResult` datatype.
- BankCharges.Charges: the source's table is a public static mutable `Dictionary`. The model treats it as the constant it is initialised to.
- Enum values outside the declared ones: a C# enum can hold any integer, and the source's dictionary lookup would throw for one. The model has exactly two bank types and two pension types.
- Startup, dependency injection, Swagger, HTTPS middleware and the `HttpClient` holder `PensionerDetailService`: these are framework wiring with no decision logic.

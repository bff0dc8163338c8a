/** `KYCService.validateStep`, the per-step completion check over the identity
    record. The service's network calls are not part of this module: each step
    receives their responses as parameters. */
module KycService {
  import opened Types

  const PhoneRequired := "Valid phone number required"
  const IdNumberRequired := "ID number required"
  const IdDocumentMissing := "ID document not processed"
  const BiometricRequired := "Biometric verification required"
  const DetailsIncomplete := "Personal details incomplete"

  datatype ValidationResult = ValidationResult(valid: bool, errors: seq<string>)

  /** What each step demands of the record, in plain terms. */
  predicate StepSatisfied(step: int, d: KYCData)
  {
    match step
    case 1 => |d.phone| >= 10
    case 2 => Truthy(d.idNumber) && d.idData.Some?
    case 3 => d.biometricVerified
    case 4 => d.idData.Some? && d.idData.value.firstName != "" && d.idData.value.lastName != ""
    case _ => true
  }

  /** The list `validateStep` accumulates, as a value. */
  function StepErrors(step: int, d: KYCData): seq<string>
  {
    match step
    case 1 => if d.phone == "" || |d.phone| < 10 then [PhoneRequired] else []
    case 2 => (if !Truthy(d.idNumber) then [IdNumberRequired] else [])
              + (if d.idData.None? then [IdDocumentMissing] else [])
    case 3 => if !d.biometricVerified then [BiometricRequired] else []
    case 4 => if d.idData.None? || d.idData.value.firstName == "" || d.idData.value.lastName == ""
              then [DetailsIncomplete] else []
    case _ => []
  }

  /** No errors exactly when the step's demand is met; never more than two. */
  lemma StepErrorsMeaning(step: int, d: KYCData)
    ensures StepErrors(step, d) == [] <==> StepSatisfied(step, d)
    ensures |StepErrors(step, d)| <= 2
    ensures step == 2 && !Truthy(d.idNumber) && d.idData.None? ==> |StepErrors(step, d)| == 2
    ensures !(1 <= step <= 4) ==> StepErrors(step, d) == []
  {
  }

  /** `validateStep`: pushes one message per unmet condition of the step. */
  method ValidateStep(step: int, d: KYCData) returns (r: ValidationResult)
    ensures r.errors == StepErrors(step, d)
    ensures r.valid <==> r.errors == []
    ensures r.valid <==> StepSatisfied(step, d)
    ensures |r.errors| <= 2
    ensures step == 1 ==> (!r.valid <==> d.phone == "" || |d.phone| < 10)
    ensures step == 2 ==> |r.errors| == (if Truthy(d.idNumber) then 0 else 1) + (if d.idData.Some? then 0 else 1)
    ensures step == 3 ==> (r.valid <==> d.biometricVerified)
    ensures step == 4 ==> (r.valid <==> d.idData.Some? && d.idData.value.firstName != "" && d.idData.value.lastName != "")
    ensures !(1 <= step <= 4) ==> r.valid && r.errors == []
  {
    var errors: seq<string> := [];
    if step == 1 {
      if d.phone == "" || |d.phone| < 10 {
        errors := errors + [PhoneRequired];
      }
    } else if step == 2 {
      if !Truthy(d.idNumber) {
        errors := errors + [IdNumberRequired];
      }
      if d.idData.None? {
        errors := errors + [IdDocumentMissing];
      }
    } else if step == 3 {
      if !d.biometricVerified {
        errors := errors + [BiometricRequired];
      }
    } else if step == 4 {
      if d.idData.None? || d.idData.value.firstName == "" || d.idData.value.lastName == "" {
        errors := errors + [DetailsIncomplete];
      }
    }
    StepErrorsMeaning(step, d);
    r := ValidationResult(|errors| == 0, errors);
  }
}

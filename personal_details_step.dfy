/** The personal-details step: a seven-field form pre-filled from the extracted
    ID data, validated field by field, whose submission saves the record with
    the confirmed names and completes the flow's last step. */
module PersonalDetails {
  import opened Types
  import opened Text
  import opened KycContext
  import opened KycService

  const FirstNameRequired := "First name is required"
  const LastNameRequired := "Last name is required"
  const DateOfBirthRequired := "Date of birth is required"
  const EmailRequired := "Valid email is required"
  const AddressRequired := "Address is required"
  const CityRequired := "City is required"
  const PostalCodeRequired := "Valid postal code required"
  const SaveFallback := "Failed to save personal details"

  datatype Field = FirstName | LastName | DateOfBirth | Email | Address | City | PostalCode

  datatype FormData = FormData(
    firstName: string,
    lastName: string,
    dateOfBirth: string,
    email: string,
    address: string,
    city: string,
    postalCode: string)

  function Get(f: FormData, k: Field): string
  {
    match k
    case FirstName => f.firstName
    case LastName => f.lastName
    case DateOfBirth => f.dateOfBirth
    case Email => f.email
    case Address => f.address
    case City => f.city
    case PostalCode => f.postalCode
  }

  /** `{ ...prev, [name]: value }`: the named field takes the value, the others stay. */
  function Set(f: FormData, k: Field, v: string): (r: FormData)
    ensures Get(r, k) == v
    ensures forall j :: j != k ==> Get(r, j) == Get(f, j)
  {
    match k
    case FirstName => f.(firstName := v)
    case LastName => f.(lastName := v)
    case DateOfBirth => f.(dateOfBirth := v)
    case Email => f.(email := v)
    case Address => f.(address := v)
    case City => f.(city := v)
    case PostalCode => f.(postalCode := v)
  }

  /** `a || b` on strings. */
  function Or(a: string, b: string): string
  {
    if a != "" then a else b
  }

  /** The form's initial state: the names and birth date of the ID data, if any. */
  function InitialForm(id: Option<IdData>): (r: FormData)
    ensures id.None? ==> r == FormData("", "", "", "", "", "", "")
    ensures id.Some? ==>
      r.firstName == id.value.firstName && r.lastName == id.value.lastName
      && r.dateOfBirth == id.value.dateOfBirth
    ensures r.email == r.address == r.city == r.postalCode == ""
  {
    if id.Some? then FormData(Or(id.value.firstName, ""), Or(id.value.lastName, ""), Or(id.value.dateOfBirth, ""), "", "", "", "")
    else FormData("", "", "", "", "", "", "")
  }

  /** The pre-population effect: non-empty ID names override the form's, and
      nothing else changes. */
  function Prefill(f: FormData, id: Option<IdData>): FormData
  {
    if id.Some? then
      f.(firstName := Or(id.value.firstName, f.firstName),
         lastName := Or(id.value.lastName, f.lastName),
         dateOfBirth := Or(id.value.dateOfBirth, f.dateOfBirth))
    else f
  }

  /** The effect changes nothing on the state the form was mounted with, and
      running it twice is running it once. */
  lemma PrefillProperties(f: FormData, id: Option<IdData>)
    ensures Prefill(InitialForm(id), id) == InitialForm(id)
    ensures Prefill(Prefill(f, id), id) == Prefill(f, id)
    ensures var r := Prefill(f, id);
      r.email == f.email && r.address == f.address && r.city == f.city && r.postalCode == f.postalCode
    ensures id.Some? && id.value.firstName != "" ==> Prefill(f, id).firstName == id.value.firstName
    ensures id.Some? && id.value.firstName == "" ==> Prefill(f, id).firstName == f.firstName
  {
  }

  /** What `validateForm` demands of one field. */
  predicate FieldValid(f: FormData, k: Field)
  {
    match k
    case FirstName => Trim(f.firstName) != ""
    case LastName => Trim(f.lastName) != ""
    case DateOfBirth => f.dateOfBirth != ""
    case Email => '@' in f.email
    case Address => Trim(f.address) != ""
    case City => Trim(f.city) != ""
    case PostalCode => |f.postalCode| == 4 && AllDigits(f.postalCode)
  }

  function Message(k: Field): (m: string)
    ensures m != ""
  {
    match k
    case FirstName => FirstNameRequired
    case LastName => LastNameRequired
    case DateOfBirth => DateOfBirthRequired
    case Email => EmailRequired
    case Address => AddressRequired
    case City => CityRequired
    case PostalCode => PostalCodeRequired
  }

  predicate FormValid(f: FormData)
  {
    forall k :: FieldValid(f, k)
  }

  /** `m` is the error record after the checks of the fields in `done`: an
      entry, holding the field's message, for each of those fields that fails. */
  ghost predicate ErrorsOf(m: map<Field, string>, f: FormData, done: set<Field>)
  {
    forall k :: (k in m <==> k in done && !FieldValid(f, k)) && (k in m ==> m[k] == Message(k))
  }

  /** `m` is the error record of the whole form. */
  ghost predicate FormErrors(m: map<Field, string>, f: FormData)
  {
    forall k :: (k in m <==> !FieldValid(f, k)) && (k in m ==> m[k] == Message(k))
  }

  /** Once every field is checked, the record is the form's. */
  lemma ErrorsComplete(m: map<Field, string>, f: FormData, done: set<Field>)
    requires ErrorsOf(m, f, done) && forall k :: k in done
    ensures FormErrors(m, f)
  {
  }

  /** The form's error record is empty exactly when the form is valid. */
  lemma FormErrorsEmptyIff(m: map<Field, string>, f: FormData)
    requires FormErrors(m, f)
    ensures m == map[] <==> FormValid(f)
  {
    if !FormValid(f) {
      var k :| !FieldValid(f, k);
      assert k in m;
    }
  }

  /** The form determines its error record. */
  lemma FormErrorsUnique(m: map<Field, string>, m': map<Field, string>, f: FormData)
    requires FormErrors(m, f) && FormErrors(m', f)
    ensures m == m'
  {
    assert m'.Keys == m.Keys;
  }

  /** A valid form has non-empty names, so the record it saves satisfies the
      last step's check, and the earlier steps' checks are not disturbed. */
  lemma {:induction false} UpdatedRecordSatisfies(d: KYCData, f: FormData)
    requires FormValid(f)
    ensures StepSatisfied(4, UpdatedRecord(d, f))
    ensures forall k :: 1 <= k <= 3 && StepSatisfied(k, d) ==> StepSatisfied(k, UpdatedRecord(d, f))
  {
    assert FieldValid(f, FirstName) && FieldValid(f, LastName);
  }

  /** The record `handleSubmit` saves: the old record with `idData` replaced by
      the old ID data's other fields and the form's names and birth date. */
  function UpdatedRecord(d: KYCData, f: FormData): (r: KYCData)
    ensures r.step == d.step && r.phone == d.phone && r.idNumber == d.idNumber
    ensures r.biometricVerified == d.biometricVerified && r.documentUrl == d.documentUrl
    ensures r.idData.Some?
    ensures r.idData.value.firstName == f.firstName && r.idData.value.lastName == f.lastName
    ensures r.idData.value.dateOfBirth == f.dateOfBirth
    ensures d.idData.Some? ==>
      r.idData.value.idNumber == d.idData.value.idNumber && r.idData.value.idType == d.idData.value.idType
    ensures d.idData.None? ==> r.idData.value.idNumber == None && r.idData.value.idType == None
  {
    var idNumber := if d.idData.Some? then d.idData.value.idNumber else None;
    var idType := if d.idData.Some? then d.idData.value.idType else None;
    d.(idData := Some(IdData(f.firstName, f.lastName, f.dateOfBirth, idNumber, idType)))
  }

  /** The contact fields never reach the record: forms that differ only in
      email, address, city or postal code save the same record. */
  lemma UpdatedRecordIgnoresContactFields(d: KYCData, f: FormData, email: string, address: string, city: string, postalCode: string)
    ensures UpdatedRecord(d, f.(email := email, address := address, city := city, postalCode := postalCode))
         == UpdatedRecord(d, f)
  {
  }

  /** One `if (...) errors.k = message` line of `validateForm`: the entry is
      added exactly when the field's check fails. */
  method Record(errors: map<Field, string>, fails: bool, ghost f: FormData, ghost done: set<Field>, k: Field)
    returns (r: map<Field, string>)
    requires ErrorsOf(errors, f, done)
    requires fails <==> !FieldValid(f, k)
    ensures ErrorsOf(r, f, done + {k})
  {
    r := errors;
    if fails {
      r := errors[k := Message(k)];
    }
  }

  /** A `!value.trim()` line of `validateForm`. */
  method RequireText(errors: map<Field, string>, value: string, ghost f: FormData, ghost done: set<Field>, k: Field)
    returns (r: map<Field, string>)
    requires ErrorsOf(errors, f, done)
    requires k in {FirstName, LastName, Address, City} && value == Get(f, k)
    ensures ErrorsOf(r, f, done + {k})
  {
    r := Record(errors, Trim(value) == "", f, done, k);
  }

  /** The `errors` object `validateForm` fills: one entry per invalid field,
      checked in the order of the form. */
  method CollectErrors(f: FormData) returns (errors: map<Field, string>)
    ensures FormErrors(errors, f)
    ensures errors == map[] <==> FormValid(f)
  {
    errors := map[];
    ghost var done: set<Field> := {};
    errors := RequireText(errors, f.firstName, f, done, FirstName);
    done := done + {FirstName};
    errors := RequireText(errors, f.lastName, f, done, LastName);
    done := done + {LastName};
    errors := Record(errors, f.dateOfBirth == "", f, done, DateOfBirth);
    done := done + {DateOfBirth};
    errors := Record(errors, '@' !in f.email, f, done, Email);
    done := done + {Email};
    errors := RequireText(errors, f.address, f, done, Address);
    done := done + {Address};
    errors := RequireText(errors, f.city, f, done, City);
    done := done + {City};
    errors := Record(errors, !(|f.postalCode| == 4 && AllDigits(f.postalCode)), f, done, PostalCode);
    done := done + {PostalCode};
    forall k
      ensures k in done
    {
      match k
      case FirstName =>
      case LastName =>
      case DateOfBirth =>
      case Email =>
      case Address =>
      case City =>
      case PostalCode =>
    }
    ErrorsComplete(errors, f, done);
    FormErrorsEmptyIff(errors, f);
  }

  class PersonalDetailsStep {
    const ctx: KycSession
    var formData: FormData
    var formErrors: map<Field, string>
    ghost var calls: seq<ServiceCall>

    constructor (ctx: KycSession)
      ensures this.ctx == ctx
      ensures formData == InitialForm(ctx.kycData.idData) && formErrors == map[] && calls == []
    {
      this.ctx := ctx;
      formData := InitialForm(ctx.kycData.idData);
      formErrors := map[];
      calls := [];
    }

    /** The effect that runs whenever `idData` changes. */
    method PrePopulate()
      modifies this`formData
      ensures formData == Prefill(old(formData), ctx.kycData.idData)
    {
      var id := ctx.kycData.idData;
      if id.Some? {
        formData := formData.(firstName := Or(id.value.firstName, formData.firstName),
                              lastName := Or(id.value.lastName, formData.lastName),
                              dateOfBirth := Or(id.value.dateOfBirth, formData.dateOfBirth));
      }
    }

    /** `validateForm`: stores the form's error record and reports whether it is empty. */
    method ValidateForm() returns (ok: bool)
      modifies this`formErrors
      ensures FormErrors(formErrors, formData)
      ensures ok <==> FormValid(formData)
      ensures ok <==> formErrors == map[]
    {
      var errors := CollectErrors(formData);
      formErrors := errors;
      ok := |errors.Keys| == 0;
      assert ok ==> errors == map[];
    }

    /** `handleChange`: the field takes the value, and its error, when it shows,
        is blanked; no key of the error record is ever removed. */
    method HandleChange(k: Field, value: string)
      modifies this`formData, this`formErrors
      ensures formData == Set(old(formData), k, value)
      ensures formErrors.Keys == old(formErrors).Keys
      ensures k in formErrors ==> formErrors[k] == ""
      ensures forall j :: j in formErrors && j != k ==> formErrors[j] == old(formErrors)[j]
    {
      formData := Set(formData, k, value);
      if k in formErrors && formErrors[k] != "" {
        formErrors := formErrors[k := ""];
      }
    }

    /** The submit button as the source writes it: enabled only while the error
        record has no keys at all. */
    predicate SubmitEnabledAsWritten()
      reads this, ctx
    {
      !ctx.isLoading && |formErrors.Keys| == 0
    }

    /** The submit button as intended: enabled while no error message shows. */
    predicate SubmitEnabled()
      reads this, ctx
    {
      !ctx.isLoading && forall k :: k in formErrors ==> formErrors[k] == ""
    }

    /** `handleSubmit`. An invalid form makes no call; otherwise the updated
        record is saved, and on success it replaces the session's record and the
        step completes; a failure shows the service's message or the fallback. */
    method HandleSubmit(response: ApiResponse<bool>) returns (completed: bool)
      modifies this`formErrors, this`calls, ctx`kycData, ctx`error, ctx`isLoading
      ensures FormErrors(formErrors, formData)
      ensures !FormValid(formData) ==>
        !completed && calls == old(calls) && ctx.kycData == old(ctx.kycData)
        && ctx.error == None && ctx.isLoading == old(ctx.isLoading)
      ensures FormValid(formData) ==>
        calls == old(calls) + [ServiceCall(SaveKycData(UpdatedRecord(old(ctx.kycData), formData)), true)]
        && !ctx.isLoading && (completed <==> response.success)
      ensures completed ==> ctx.kycData == UpdatedRecord(old(ctx.kycData), formData) && ctx.error == None
      ensures completed ==> StepSatisfied(4, ctx.kycData)
      ensures FormValid(formData) && !completed ==>
        ctx.kycData == old(ctx.kycData) && ctx.error == Some(ErrorOr(response.error, SaveFallback))
    {
      ctx.SetError(None);
      var ok := ValidateForm();
      if !ok {
        return false;
      }
      ctx.SetLoading(true);
      var updated := UpdatedRecord(ctx.kycData, formData);
      calls := calls + [ServiceCall(SaveKycData(updated), ctx.isLoading)];
      if response.success {
        ctx.UpdateKycData(FullPatch(updated));
        UpdatedRecordSatisfies(old(ctx.kycData), formData);
        completed := true;
      } else {
        ctx.SetError(Some(ErrorOr(response.error, SaveFallback)));
        completed := false;
      }
      ctx.SetLoading(false);
    }
  }

  /** As written, once a submission has failed validation the button stays
      disabled whatever the user then types. */
  method SubmitLockedAsWritten(edits: seq<(Field, string)>) returns (enabled: bool)
    ensures !enabled
  {
    var session := new KycSession();
    var step := new PersonalDetailsStep(session);
    var _ := step.HandleSubmit(ApiResponse(true, None, None));
    assert !FieldValid(step.formData, Email);
    assert Email in step.formErrors;
    EditAll(step, edits);
    enabled := step.SubmitEnabledAsWritten();
  }

  /** Some edit in `edits` changes field `k`. */
  predicate Edited(edits: seq<(Field, string)>, k: Field)
  {
    exists j :: 0 <= j < |edits| && edits[j].0 == k
  }

  lemma EditedPrefix(edits: seq<(Field, string)>, i: nat, k: Field)
    requires i < |edits| && Edited(edits[..i + 1], k)
    ensures Edited(edits[..i], k) || k == edits[i].0
  {
    var j :| 0 <= j < i + 1 && edits[..i + 1][j].0 == k;
    if j < i {
      assert edits[..i][j].0 == k;
    }
  }

  /** The user types each edit in turn: the keys of the error record stay, and
      every edited field's entry is blank. */
  method EditAll(step: PersonalDetailsStep, edits: seq<(Field, string)>)
    modifies step`formData, step`formErrors
    ensures step.formErrors.Keys == old(step.formErrors).Keys
    ensures forall k :: k in step.formErrors && Edited(edits, k) ==> step.formErrors[k] == ""
  {
    var i := 0;
    while i < |edits|
      invariant 0 <= i <= |edits|
      invariant step.formErrors.Keys == old(step.formErrors).Keys
      invariant forall k :: k in step.formErrors && Edited(edits[..i], k) ==> step.formErrors[k] == ""
    {
      step.HandleChange(edits[i].0, edits[i].1);
      forall k | Edited(edits[..i + 1], k)
        ensures Edited(edits[..i], k) || k == edits[i].0
      {
        EditedPrefix(edits, i, k);
      }
      i := i + 1;
    }
    assert edits[..i] == edits;
  }

  /** With the intended button, editing every field that showed an error after
      a failed submission enables it again. */
  method SubmitUnlocksAfterEdits(edits: seq<(Field, string)>) returns (enabled: bool)
    requires forall k :: Edited(edits, k)
    ensures enabled
  {
    var session := new KycSession();
    var step := new PersonalDetailsStep(session);
    var _ := step.HandleSubmit(ApiResponse(true, None, None));
    EditAll(step, edits);
    enabled := step.SubmitEnabled();
  }
}

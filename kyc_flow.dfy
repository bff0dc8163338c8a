/** The KYC page: it shows the step the cursor selects, advances the cursor when
    that step completes, leaves for product selection when the last one does, and
    offers Back and Cancel. Each user action is one method; a method requires
    the control it stands for to be shown and enabled. */
module KycFlow {
  import opened Types
  import opened KycContext
  import opened KycService
  import opened PhoneVerification
  import opened IdCapture
  import opened BiometricVerification
  import opened PersonalDetails
  import opened Text

  datatype StepView = PhoneView | IdCaptureView | BiometricView | DetailsView

  /** The step content: four independent `currentStep === k && <Step/>` children. */
  function Rendered(cursor: int): seq<StepView>
  {
    (if cursor == 1 then [PhoneView] else [])
    + (if cursor == 2 then [IdCaptureView] else [])
    + (if cursor == 3 then [BiometricView] else [])
    + (if cursor == 4 then [DetailsView] else [])
  }

  /** The view of step `k`. */
  function ViewOf(k: int): StepView
    requires 1 <= k <= 4
  {
    if k == 1 then PhoneView else if k == 2 then IdCaptureView else if k == 3 then BiometricView else DetailsView
  }

  /** Each cursor value in [1, 4] shows exactly its own step, and any other shows none. */
  lemma ExactlyOneStepRendered(cursor: int)
    ensures 1 <= cursor <= 4 ==> Rendered(cursor) == [ViewOf(cursor)]
    ensures !(1 <= cursor <= 4) ==> Rendered(cursor) == []
  {
  }

  /** The Back button is shown exactly above the first step. */
  predicate BackVisible(cursor: int)
  {
    cursor > 1
  }

  /** Where the page has sent the user. */
  datatype Exit = InProgress | ToProductSelection(referralCode: Option<string>, kycData: KYCData) | ToHome

  /** Facts about the record that every step keeps: a biometric pass needs a
      stored ID image, a stored image comes with extracted ID data, and the
      record's ID number is the extracted one. */
  predicate RecordInv(d: KYCData)
  {
    && (d.biometricVerified ==> Truthy(d.documentUrl))
    && (d.documentUrl.Some? ==> d.idData.Some?)
    && (d.idData.Some? ==> d.idNumber == d.idData.value.idNumber)
  }

  /** Every step before the cursor passes `validateStep`. */
  predicate Progress(d: KYCData, cursor: int)
  {
    forall k :: 1 <= k < cursor ==> StepSatisfied(k, d)
  }

  predicate AllStepsSatisfied(d: KYCData)
  {
    forall k :: 1 <= k <= 4 ==> StepSatisfied(k, d)
  }

  /** A session the page can be entered with. */
  ghost predicate SessionOk(s: KycSession)
    reads s
  {
    s.Valid() && !s.isLoading && RecordInv(s.kycData) && Progress(s.kycData, s.currentStep)
  }

  /** The initial record is a session the page can be entered with. */
  lemma InitialRecordOk()
    ensures RecordInv(InitialKycData) && Progress(InitialKycData, 1)
  {
  }

  class KycFlow {
    const session: KycSession
    const referralCode: Option<string>
    var phoneStep: PhoneVerificationStep
    var idStep: IdCaptureStep
    var biometricStep: BiometricVerificationStep
    var detailsStep: PersonalDetailsStep
    var exit: Exit

    ghost predicate Valid()
      reads this, session, phoneStep, idStep, biometricStep, detailsStep
    {
      && SessionOk(session)
      && phoneStep.ctx == session && idStep.ctx == session
      && biometricStep.ctx == session && detailsStep.ctx == session
      && phoneStep.Inv() && biometricStep.Inv()
      && (session.currentStep == 2 ==> idStep.Inv())
      && (exit.ToProductSelection? ==> AllStepsSatisfied(exit.kycData))
    }

    /** The step the cursor selects is in the state it is mounted with. */
    ghost predicate JustMounted()
      reads this, session, phoneStep, idStep, biometricStep, detailsStep
    {
      && (session.currentStep == 1 ==>
            phoneStep.phone == session.kycData.phone && !phoneStep.showOtp && phoneStep.otp == "")
      && (session.currentStep == 2 ==>
            idStep.extractedData == session.kycData.idData && idStep.preview == None && idStep.idType == NationalId)
      && (session.currentStep == 3 ==> biometricStep.selfieCapture == None && !biometricStep.cameraActive)
      && (session.currentStep == 4 ==> detailsStep.formErrors == map[])
    }

    /** Entering the page mounts the step the cursor selects. */
    constructor (session: KycSession, referralCode: Option<string>)
      requires SessionOk(session)
      ensures Valid() && exit == InProgress && JustMounted()
      ensures this.session == session && this.referralCode == referralCode
      ensures fresh(phoneStep) && fresh(idStep) && fresh(biometricStep) && fresh(detailsStep)
    {
      this.session := session;
      this.referralCode := referralCode;
      phoneStep := new PhoneVerificationStep(session);
      idStep := new IdCaptureStep(session);
      biometricStep := new BiometricVerificationStep(session);
      detailsStep := new PersonalDetailsStep(session);
      exit := InProgress;
      new;
      if session.currentStep == 4 {
        detailsStep.PrePopulate();
      }
    }

    /** A change of cursor unmounts the old step and mounts a fresh one. */
    method Mount()
      requires SessionOk(session) && phoneStep.Inv() && biometricStep.Inv()
      requires phoneStep.ctx == session && idStep.ctx == session
      requires biometricStep.ctx == session && detailsStep.ctx == session
      requires exit.ToProductSelection? ==> AllStepsSatisfied(exit.kycData)
      modifies this`phoneStep, this`idStep, this`biometricStep, this`detailsStep
      ensures Valid() && JustMounted()
      ensures session.currentStep == 1 ==> fresh(phoneStep)
      ensures session.currentStep == 2 ==> fresh(idStep)
      ensures session.currentStep == 3 ==> fresh(biometricStep)
      ensures session.currentStep == 4 ==> fresh(detailsStep)
    {
      var c := session.currentStep;
      if c == 1 {
        phoneStep := new PhoneVerificationStep(session);
      } else if c == 2 {
        idStep := new IdCaptureStep(session);
      } else if c == 3 {
        biometricStep := new BiometricVerificationStep(session);
      } else {
        detailsStep := new PersonalDetailsStep(session);
        detailsStep.PrePopulate();
      }
    }

    /** `handleStepComplete`, called by a step whose check now passes: the last
        step leaves for product selection with the record, the others advance. */
    method StepComplete()
      requires Valid() && exit == InProgress
      requires StepSatisfied(session.currentStep, session.kycData)
      modifies this`exit, this`phoneStep, this`idStep, this`biometricStep, this`detailsStep, session`currentStep
      ensures Valid()
      ensures old(session.currentStep) == 4 ==>
        session.currentStep == 4 && exit == ToProductSelection(referralCode, session.kycData)
      ensures old(session.currentStep) < 4 ==>
        session.currentStep == old(session.currentStep) + 1 && exit == InProgress && JustMounted()
      ensures session.currentStep == 2 && old(session.currentStep) == 1 ==> fresh(idStep)
      ensures session.currentStep == 3 && old(session.currentStep) == 2 ==> fresh(biometricStep)
      ensures session.currentStep == 4 && old(session.currentStep) == 3 ==> fresh(detailsStep)
    {
      if session.currentStep == 4 {
        exit := ToProductSelection(referralCode, session.kycData);
      } else {
        session.NextStep();
        Mount();
      }
    }

    // Step 1: phone verification.

    method TypePhone(value: string)
      requires Valid() && exit == InProgress && session.currentStep == 1 && !phoneStep.showOtp
      modifies phoneStep`phone
      ensures Valid() && phoneStep.phone == value
    {
      phoneStep.EnterPhone(value);
    }

    method SendOtp(response: ApiResponse<bool>)
      requires Valid() && exit == InProgress && session.currentStep == 1
      requires !phoneStep.showOtp && phoneStep.phone != ""
      modifies phoneStep`showOtp, phoneStep`calls, session`kycData, session`error, session`isLoading
      ensures Valid() && session.currentStep == 1
      ensures session.kycData == old(session.kycData)
           || session.kycData == old(session.kycData).(phone := phoneStep.phone)
      ensures SaPhonePattern(phoneStep.phone) && response.success ==> phoneStep.showOtp
    {
      phoneStep.HandleSendOtp(response);
    }

    method TypeOtp(raw: string)
      requires Valid() && exit == InProgress && session.currentStep == 1 && phoneStep.showOtp
      modifies phoneStep`otp
      ensures Valid() && phoneStep.otp == SanitizeOtp(raw)
    {
      phoneStep.EnterOtp(raw);
    }

    method OtpBack()
      requires Valid() && exit == InProgress && session.currentStep == 1 && phoneStep.showOtp
      modifies phoneStep`showOtp
      ensures Valid() && !phoneStep.showOtp
    {
      phoneStep.ShowPhoneForm();
    }

    /** The only way past step 1: a successful OTP check for a number that
        passed the pattern. */
    method VerifyOtp(response: ApiResponse<bool>) returns (completed: bool)
      requires Valid() && exit == InProgress && session.currentStep == 1
      requires phoneStep.showOtp && |phoneStep.otp| == 6
      modifies this`exit, this`phoneStep, this`idStep, this`biometricStep, this`detailsStep, session
      modifies phoneStep`otpError, phoneStep`calls
      ensures Valid() && exit == InProgress
      ensures completed <==> response.success
      ensures completed ==>
        session.currentStep == 2 && session.kycData == old(session.kycData).(phone := old(phoneStep.phone))
        && StepSatisfied(1, session.kycData) && JustMounted() && fresh(idStep)
      ensures !completed ==> session.currentStep == 1 && session.kycData == old(session.kycData)
    {
      var step := phoneStep;
      completed := step.HandleVerifyOtp(response);
      if completed {
        SaPhoneIsValidPhone(step.phone);
        StepComplete();
      }
    }

    // Step 2: ID capture.

    method ChooseIdType(t: IdType)
      requires Valid() && exit == InProgress && session.currentStep == 2 && idStep.UploadEnabled()
      modifies idStep`idType
      ensures Valid() && idStep.idType == t
    {
      idStep.SetIdType(t);
    }

    /** An upload: only while nothing has been extracted, and with a file read
        that succeeds. A successful one writes the ID keys and nothing that
        belongs to step 1 or 3, and disables further uploads; any other outcome
        keeps the record. */
    method ChooseFile(file: Option<SelectedFile>, response: ApiResponse<OcrResult>)
      requires Valid() && exit == InProgress && session.currentStep == 2 && idStep.UploadEnabled()
      modifies idStep`preview, idStep`extractedData, idStep`calls, session`kycData, session`error, session`isLoading
      ensures Valid() && session.currentStep == 2
      ensures session.kycData.phone == old(session.kycData.phone)
      ensures !session.kycData.biometricVerified
      ensures file.Some? && FileAccepted(file.value) && response.success && response.data.Some? ==>
        session.kycData == Merge(old(session.kycData), OcrPatch(response.data.value, Some(file.value.dataUrl)))
        && idStep.extractedData == Some(ExtractedIdData(response.data.value)) && !idStep.UploadEnabled()
      ensures !(file.Some? && FileAccepted(file.value) && response.success && response.data.Some?) ==>
        session.kycData == old(session.kycData) && idStep.UploadEnabled()
    {
      var d := session.kycData;
      assert !d.biometricVerified && StepSatisfied(1, d);
      idStep.HandleFileSelect(file, true, response);
      if file.Some? && FileAccepted(file.value) && response.success && response.data.Some? {
        OcrPatchKeepsOtherSteps(d, response.data.value, Some(file.value.dataUrl));
      }
      assert StepSatisfied(1, session.kycData);
    }

    /** The only way past step 2: the authority confirms the extracted number. */
    method VerifyId(response: ApiResponse<IdVerificationResult>) returns (completed: bool)
      requires Valid() && exit == InProgress && session.currentStep == 2 && idStep.extractedData.Some?
      modifies this`exit, this`phoneStep, this`idStep, this`biometricStep, this`detailsStep, session
      modifies idStep`calls
      ensures Valid() && exit == InProgress
      ensures session.kycData == old(session.kycData)
      ensures completed ==> session.currentStep == 3 && StepSatisfied(2, session.kycData) && JustMounted() && fresh(biometricStep)
      ensures !completed ==> session.currentStep == 2 && idStep == old(idStep) && idStep.extractedData == old(idStep.extractedData)
      ensures completed <==> response.success && response.data.Some? && response.data.value.verified
                             && Truthy(old(idStep.extractedData).value.idNumber)
    {
      completed := idStep.HandleVerifyId(response);
      if completed {
        StepComplete();
      }
    }

    // Step 3: biometric verification.

    method StartCamera(granted: bool, trackCount: nat)
      requires Valid() && exit == InProgress && session.currentStep == 3
      requires !biometricStep.cameraActive && !Truthy(biometricStep.selfieCapture)
      modifies biometricStep`tracks, biometricStep`cameraActive, biometricStep`streamAttached, session`error
      ensures Valid()
      ensures biometricStep.cameraActive <==> granted
    {
      biometricStep.StartCamera(granted, trackCount);
    }

    method CancelCamera()
      requires Valid() && exit == InProgress && session.currentStep == 3 && biometricStep.cameraActive
      modifies biometricStep`cameraActive, biometricStep`streamAttached, biometricStep.tracks
      ensures Valid() && !biometricStep.cameraActive
    {
      biometricStep.StopCamera();
    }

    method Capture(image: string, hasContext: bool)
      requires Valid() && exit == InProgress && session.currentStep == 3 && biometricStep.cameraActive
      modifies biometricStep`selfieCapture, biometricStep`cameraActive, biometricStep`streamAttached, biometricStep.tracks
      ensures Valid()
      ensures hasContext ==> biometricStep.selfieCapture == Some(image) && !biometricStep.cameraActive
    {
      biometricStep.CaptureSelfie(image, hasContext);
    }

    method Retake(granted: bool, trackCount: nat)
      requires Valid() && exit == InProgress && session.currentStep == 3 && Truthy(biometricStep.selfieCapture)
      modifies biometricStep`selfieCapture, biometricStep`tracks, biometricStep`cameraActive, biometricStep`streamAttached
      modifies session`error
      ensures Valid() && biometricStep.selfieCapture == None
      ensures granted ==> biometricStep.cameraActive && session.error == old(session.error)
      ensures !granted ==> biometricStep.cameraActive == old(biometricStep.cameraActive)
    {
      biometricStep.HandleRetry(granted, trackCount);
    }

    /** The only way past step 3: a verified match, which needs the stored ID image. */
    method VerifyBiometric(response: ApiResponse<BiometricMatch>) returns (completed: bool)
      requires Valid() && exit == InProgress && session.currentStep == 3 && Truthy(biometricStep.selfieCapture)
      modifies this`exit, this`phoneStep, this`idStep, this`biometricStep, this`detailsStep, session
      modifies biometricStep`selfieCapture, biometricStep`calls
      ensures Valid() && exit == InProgress
      ensures completed ==>
        session.currentStep == 4 && session.kycData == old(session.kycData).(biometricVerified := true)
        && Truthy(session.kycData.documentUrl) && session.error == old(session.error)
      ensures !completed ==> session.currentStep == 3 && session.kycData == old(session.kycData)
    {
      var d := session.kycData;
      assert StepSatisfied(1, d) && StepSatisfied(2, d);
      completed := biometricStep.HandleVerifyBiometric(response);
      if completed {
        assert StepSatisfied(1, session.kycData) && StepSatisfied(2, session.kycData);
        StepComplete();
      }
    }

    // Step 4: personal details.

    method EditDetail(k: Field, value: string)
      requires Valid() && exit == InProgress && session.currentStep == 4
      modifies detailsStep`formData, detailsStep`formErrors
      ensures Valid() && detailsStep.formData == Set(old(detailsStep.formData), k, value)
    {
      detailsStep.HandleChange(k, value);
    }

    /** The last step: a valid form whose save succeeds sends the user on with
        the saved record, which passes all four checks. (The source hands on the
        record from before the save; `StaleHandOffAsWritten` shows the
        difference.) */
    method Submit(response: ApiResponse<bool>) returns (completed: bool)
      requires Valid() && exit == InProgress && session.currentStep == 4 && detailsStep.SubmitEnabled()
      modifies this`exit, this`phoneStep, this`idStep, this`biometricStep, this`detailsStep, session
      modifies detailsStep`formErrors, detailsStep`calls
      ensures Valid() && session.currentStep == 4
      ensures completed <==> FormValid(old(detailsStep.formData)) && response.success
      ensures completed ==>
        exit == ToProductSelection(referralCode, session.kycData) && AllStepsSatisfied(session.kycData)
        && session.kycData == UpdatedRecord(old(session.kycData), old(detailsStep.formData))
      ensures !completed ==> exit == InProgress && session.kycData == old(session.kycData)
    {
      var d := session.kycData;
      var form := detailsStep.formData;
      assert StepSatisfied(2, d);
      completed := detailsStep.HandleSubmit(response);
      if completed {
        UpdatedRecordSatisfies(d, form);
        StepComplete();
      }
    }

    // Page controls.

    /** The Back button: one step back, record untouched. */
    method Back()
      requires Valid() && exit == InProgress && BackVisible(session.currentStep)
      modifies this`phoneStep, this`idStep, this`biometricStep, this`detailsStep, session`currentStep
      ensures Valid() && exit == InProgress
      ensures session.currentStep == old(session.currentStep) - 1
    {
      session.PreviousStep();
      Mount();
    }

    /** The close button: only a confirmed cancel resets the session and leaves. */
    method Cancel(confirmed: bool)
      requires Valid() && exit == InProgress
      modifies this`exit, session`kycData, session`currentStep, session`error
      ensures Valid()
      ensures confirmed ==>
        exit == ToHome && session.kycData == InitialKycData && session.currentStep == 1 && session.error == None
      ensures !confirmed ==>
        exit == InProgress && session.kycData == old(session.kycData)
        && session.currentStep == old(session.currentStep) && session.error == old(session.error)
    {
      if confirmed {
        session.ResetKyc();
        exit := ToHome;
      }
    }
  }

  lemma SamplePhoneAccepted()
    ensures SaPhonePattern("+27601234567")
  {
  }

  lemma SampleOtpKept()
    ensures SanitizeOtp("123456") == "123456"
  {
  }

  /** From a fresh session: a valid number, a sent OTP and a successful check
      take the page to step 2 with the number stored. */
  method PhoneScenario() returns (flow: KycFlow)
    ensures fresh(flow) && fresh(flow.session) && fresh(flow.idStep)
    ensures flow.Valid() && flow.exit == InProgress && flow.JustMounted() && !flow.session.isLoading
    ensures flow.session.currentStep == 2 && flow.session.kycData.phone == "+27601234567"
    ensures flow.idStep.extractedData == None
  {
    var session := new KycSession();
    InitialRecordOk();
    flow := new KycFlow(session, None);
    flow.TypePhone("+27601234567");
    SamplePhoneAccepted();
    flow.SendOtp(ApiResponse(true, Some(true), None));
    flow.TypeOtp("123456");
    SampleOtpKept();
    var done := flow.VerifyOtp(ApiResponse(true, Some(true), None));
  }

  /** At step 2, an extracted number that the authority rejects keeps the page
      on step 2 with the number still in the record and on screen. */
  method RejectedIdScenario() returns (cursor: int, idNumber: Option<string>, shown: Option<IdData>)
    ensures cursor == 2 && idNumber == Some("9001015800086")
    ensures shown.Some? && shown.value.idNumber == Some("9001015800086")
  {
    var flow := PhoneScenario();
    var r := OcrResult("Thabo", "Mokoena", "1990-01-01", "9001015800086", NationalId);
    var file := SelectedFile("image/jpeg", 1024, "data:image/jpeg;base64,AAAA");
    assert FileAccepted(file);
    flow.ChooseFile(Some(file), ApiResponse(true, Some(r), None));
    var done := flow.VerifyId(ApiResponse(true, Some(IdVerificationResult(false, 0.4)), None));
    cursor, idNumber, shown := flow.session.currentStep, flow.session.kycData.idNumber, flow.idStep.extractedData;
  }

  /** As written, the page hands product selection the record of its last
      render, taken before the save: an ID document read without a first name,
      completed by the user on the form, is saved with the name but handed on
      without it, so the record handed on fails the last step's check. */
  method StaleHandOffAsWritten() returns (handedOn: KYCData, saved: KYCData)
    ensures StepSatisfied(4, saved) && !StepSatisfied(4, handedOn)
  {
    var session := new KycSession();
    var id := IdData("", "Mokoena", "1990-01-01", Some("9001015800086"), Some("national_id"));
    session.UpdateKycData(EmptyPatch.(idNumber := Some(Some("9001015800086")), idData := Some(Some(id))));
    var step := new PersonalDetailsStep(session);
    TypeDetails(step, "Thabo", "t@example.co.za", "1 Long Street", "Cape Town", "8001");
    SampleFormValid(step.formData);
    var rendered := session.kycData;
    var _ := step.HandleSubmit(ApiResponse(true, None, None));
    handedOn, saved := rendered, session.kycData;
  }

  /** The user types a first name and the four contact fields. */
  method TypeDetails(step: PersonalDetailsStep, firstName: string, email: string, address: string, city: string, postalCode: string)
    modifies step`formData, step`formErrors
    ensures step.formData == old(step.formData).(firstName := firstName, email := email, address := address,
                                                  city := city, postalCode := postalCode)
  {
    step.HandleChange(FirstName, firstName);
    step.HandleChange(Email, email);
    step.HandleChange(Address, address);
    step.HandleChange(City, city);
    step.HandleChange(PostalCode, postalCode);
  }

  lemma SampleFormValid(f: FormData)
    requires |f.firstName| > 0 && !IsWhitespace(f.firstName[0])
    requires |f.lastName| > 0 && !IsWhitespace(f.lastName[0])
    requires |f.address| > 0 && !IsWhitespace(f.address[0])
    requires |f.city| > 0 && !IsWhitespace(f.city[0])
    requires f.dateOfBirth != "" && |f.email| > 1 && f.email[1] == '@'
    requires |f.postalCode| == 4 && AllDigits(f.postalCode)
    ensures FormValid(f)
  {
    TrimEmptyIff(f.firstName);
    TrimEmptyIff(f.lastName);
    TrimEmptyIff(f.address);
    TrimEmptyIff(f.city);
    assert '@' in f.email;
    forall k ensures FieldValid(f, k) {
      match k
      case FirstName =>
      case LastName =>
      case DateOfBirth =>
      case Email =>
      case Address =>
      case City =>
      case PostalCode =>
    }
  }
}

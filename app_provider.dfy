/** The application provider: the reducer's state cell, its `dispatch`, and
    the action creators that run fixed dispatch sequences around a service
    call. Each service outcome is a parameter. */
module AppProvider {
  import opened Types
  import opened AppTypes
  import opened AppReducer

  /** The outcome of an awaited call that may throw: a resolved response, or an
      exception; `Threw(Some(m))` is an `Error` with message `m`, `Threw(None)`
      any other thrown value. */
  datatype Call<T> = Returned(response: ApiResponse<T>) | Threw(message: Option<string>)

  const CaughtFallback := "An error occurred"
  const SignupFailed := "Signup failed"
  const LoginFailed := "Login failed"
  const OtpVerificationFailed := "OTP verification failed"
  const OtpSendFailed := "Failed to send OTP"
  const PriceCalculationFailed := "Price calculation failed"
  const ApprovedStatus := "approved"
  const ApprovedMessage := "You have been approved instantly!"

  /** The `catch` branch's message: `error instanceof Error ? error.message : fallback`. */
  function CaughtMessage(message: Option<string>): string
  {
    if message.Some? then message.value else CaughtFallback
  }

  /** The message a call that did not succeed leaves behind: the response's
      error (or the fallback when it is empty), or the caught message. */
  function FailureMessage<T>(call: Call<T>, fallback: string): (m: string)
    ensures call.Returned? && Truthy(call.response.error) ==> m == call.response.error.value
    ensures call.Returned? && !Truthy(call.response.error) ==> m == fallback
    ensures call.Threw? ==> m == CaughtMessage(call.message)
  {
    if call.Returned? then ErrorOr(call.response.error, fallback) else CaughtMessage(call.message)
  }

  /** `response.success && response.data`: the response resolved, succeeded and
      carries data (every object is truthy). */
  predicate SucceededWithData<T>(call: Call<T>)
  {
    call.Returned? && call.response.success && call.response.data.Some?
  }

  /** `response.success` alone, for the calls whose data is not read. */
  predicate Succeeded<T>(call: Call<T>)
  {
    call.Returned? && call.response.success
  }

  datatype Session = Session(user: User, token: string)
  datatype SignupData = SignupData(
    phone: string, firstName: string, lastName: string, idNumber: string,
    dateOfBirth: string, password: string, referralCode: Option<string>)
  datatype LoginData = LoginData(phone: string, password: string)
  datatype PaymentSetup = PaymentSetup(bankAccount: string, bankCode: string, accountHolder: string)
  datatype ReferralCheck = ReferralCheck(valid: bool, agentName: Option<string>)

  /** A request sent to a service, as recorded in the provider's call log. */
  datatype Request =
    | SignupRequest(signup: SignupData)
    | LoginRequest(login: LoginData)
    | LogoutRequest
    | VerifyOtpRequest(phone: string, otp: string)
    | RequestOtpRequest(otpPhone: string)
    | ValidateReferralRequest(code: string)
    | CalculatePriceRequest(productId: string, riderIds: seq<string>, dependentCount: int)
    | GetPoliciesRequest

  /** The dispatches of `signup` and `login`: loading, then either success and
      the stage change, or the error. */
  function AuthActions(call: Call<Session>, target: ApplicationStep, fallback: string): seq<Action>
  {
    if SucceededWithData(call) then
      [SetAuthLoading(true), SetAuthSuccess(call.response.data.value.user, call.response.data.value.token), SetStep(target)]
    else
      [SetAuthLoading(true), SetAuthError(FailureMessage(call, fallback))]
  }

  const OnboardingLoading := NoOnboardingKeys.(loading := Some(true))

  /** `{ loading: false, error: message }`. */
  function OnboardingFailure(message: string): OnboardingPatch
  {
    NoOnboardingKeys.(loading := Some(false), error := Some(Some(message)))
  }

  /** The dispatches of `verifyOTP`. */
  function VerifyOtpActions(call: Call<bool>): seq<Action>
  {
    if Succeeded(call) then
      [UpdateOnboarding(OnboardingLoading),
       UpdateOnboarding(NoOnboardingKeys.(loading := Some(false), otpSent := Some(false), otp := Some(""))),
       SetOnboardingStep(PersonalInfo)]
    else
      [UpdateOnboarding(OnboardingLoading), UpdateOnboarding(OnboardingFailure(FailureMessage(call, OtpVerificationFailed)))]
  }

  /** The dispatches of `requestOTP`. */
  function RequestOtpActions(phone: string, call: Call<bool>): seq<Action>
  {
    if Succeeded(call) then
      [UpdateOnboarding(OnboardingLoading),
       UpdateOnboarding(NoOnboardingKeys.(loading := Some(false), otpSent := Some(true), phone := Some(phone)))]
    else
      [UpdateOnboarding(OnboardingLoading), UpdateOnboarding(OnboardingFailure(FailureMessage(call, OtpSendFailed)))]
  }

  /** The result of `validateReferralCode`: true exactly when the lookup
      succeeded and says the code is valid. */
  function ReferralValid(call: Call<ReferralCheck>): (valid: bool)
    ensures valid ==> call.Returned? && call.response.success
    ensures valid <==> SucceededWithData(call) && call.response.data.value.valid
  {
    match call
    case Threw(_) => false
    case Returned(r) => r.success && r.data.Some? && r.data.value.valid
  }

  class AppContextProvider {
    /** The token storage held when the page loaded. */
    const startupToken: Option<string>
    var state: AppState
    /** The token currently in storage. */
    var storedToken: Option<string>
    ghost var dispatched: seq<Action>
    ghost var requests: seq<Request>

    /** The state is the initial state with every dispatch so far applied. */
    ghost predicate Valid()
      reads this
    {
      state == ReduceAll(InitialState(startupToken), dispatched, startupToken)
      && AuthConsistent(state)
    }

    constructor (startupToken: Option<string>)
      ensures Valid() && state == InitialState(startupToken)
      ensures this.startupToken == startupToken && storedToken == startupToken
      ensures dispatched == [] && requests == []
    {
      this.startupToken := startupToken;
      state := InitialState(startupToken);
      storedToken := startupToken;
      dispatched := [];
      requests := [];
      InitialAuthConsistent(startupToken);
    }

    /** `dispatch`: applies the reducer to the current state. `setStep`,
        `goBack`, `setOnboardingStep`, `updateOnboarding`, `selectProduct`,
        `toggleRider`, `addDependent`, `removeDependent`,
        `updateUnderwritingAnswers` and `setActivePolicy` are each exactly one
        call of it. */
    method Dispatch(a: Action)
      requires Valid()
      modifies this`state, this`dispatched
      ensures Valid()
      ensures state == Reduce(old(state), a, startupToken)
      ensures dispatched == old(dispatched) + [a]
    {
      ReduceAllAppend(InitialState(startupToken), dispatched, [a], startupToken);
      assert ReduceAll(state, [a], startupToken) == ReduceAll(Reduce(state, a, startupToken), [], startupToken);
      ReduceAllKeepsAuthConsistent(state, [a], startupToken);
      state := Reduce(state, a, startupToken);
      dispatched := dispatched + [a];
    }

    /** The shared body of `signup` and `login`: on success with data, store the
        token, sign in and move to `target`; otherwise record the error and
        stay. */
    method Authenticate(call: Call<Session>, target: ApplicationStep, fallback: string)
      requires Valid()
      modifies this`state, this`dispatched, this`storedToken
      ensures Valid()
      ensures dispatched == old(dispatched) + AuthActions(call, target, fallback)
      ensures SucceededWithData(call) ==>
        var session := call.response.data.value;
        state.auth == AuthState(true, Some(session.user), Some(session.token), false, None)
        && state.currentStep == target && state.previousStep == Some(old(state.currentStep))
        && storedToken == Some(session.token)
      ensures !SucceededWithData(call) ==>
        state.auth == old(state.auth).(loading := false, error := Some(FailureMessage(call, fallback)))
        && state.currentStep == old(state.currentStep) && state.previousStep == old(state.previousStep)
        && storedToken == old(storedToken)
      ensures forall k :: k != AuthSlice && k != Navigation ==> Agrees(old(state), state, k)
    {
      ghost var s0 := state;
      Dispatch(SetAuthLoading(true));
      ghost var s1 := state;
      if SucceededWithData(call) {
        var session := call.response.data.value;
        storedToken := Some(session.token);
        Dispatch(SetAuthSuccess(session.user, session.token));
        ghost var s2 := state;
        Dispatch(SetStep(target));
        ReduceWritesOnly(s1, SetAuthSuccess(session.user, session.token), startupToken);
        ReduceWritesOnly(s2, SetStep(target), startupToken);
      } else {
        Dispatch(SetAuthError(FailureMessage(call, fallback)));
        ReduceWritesOnly(s1, SetAuthError(FailureMessage(call, fallback)), startupToken);
      }
      ReduceWritesOnly(s0, SetAuthLoading(true), startupToken);
    }

    /** `signup`: a successful registration signs in and goes to products. */
    method Signup(data: SignupData, call: Call<Session>)
      requires Valid()
      modifies this`state, this`dispatched, this`storedToken, this`requests
      ensures Valid()
      ensures requests == old(requests) + [SignupRequest(data)]
      ensures dispatched == old(dispatched) + AuthActions(call, Products, SignupFailed)
      ensures SucceededWithData(call) ==>
        var session := call.response.data.value;
        state.auth == AuthState(true, Some(session.user), Some(session.token), false, None)
        && storedToken == Some(session.token)
        && state.currentStep == Products && state.previousStep == Some(old(state.currentStep))
      ensures !SucceededWithData(call) ==>
        state.auth == old(state.auth).(loading := false, error := Some(FailureMessage(call, SignupFailed)))
        && state.currentStep == old(state.currentStep) && state.previousStep == old(state.previousStep)
        && storedToken == old(storedToken)
      ensures forall k :: k != AuthSlice && k != Navigation ==> Agrees(old(state), state, k)
    {
      requests := requests + [SignupRequest(data)];
      Authenticate(call, Products, SignupFailed);
    }

    /** `login`: a successful sign-in goes to the dashboard. */
    method Login(data: LoginData, call: Call<Session>)
      requires Valid()
      modifies this`state, this`dispatched, this`storedToken, this`requests
      ensures Valid()
      ensures requests == old(requests) + [LoginRequest(data)]
      ensures dispatched == old(dispatched) + AuthActions(call, Dashboard, LoginFailed)
      ensures SucceededWithData(call) ==>
        var session := call.response.data.value;
        state.auth == AuthState(true, Some(session.user), Some(session.token), false, None)
        && storedToken == Some(session.token)
        && state.currentStep == Dashboard && state.previousStep == Some(old(state.currentStep))
      ensures !SucceededWithData(call) ==>
        state.auth == old(state.auth).(loading := false, error := Some(FailureMessage(call, LoginFailed)))
        && state.currentStep == old(state.currentStep) && state.previousStep == old(state.previousStep)
        && storedToken == old(storedToken)
      ensures forall k :: k != AuthSlice && k != Navigation ==> Agrees(old(state), state, k)
    {
      requests := requests + [LoginRequest(data)];
      Authenticate(call, Dashboard, LoginFailed);
    }

    /** `logout`: whatever the service does, the token is removed and `LOGOUT`
        is dispatched; a thrown call still propagates (`rejected`). */
    method SignOut(call: Call<bool>) returns (rejected: bool)
      requires Valid()
      modifies this`state, this`dispatched, this`storedToken, this`requests
      ensures Valid()
      ensures requests == old(requests) + [LogoutRequest]
      ensures dispatched == old(dispatched) + [Logout]
      ensures rejected <==> call.Threw?
      ensures storedToken == None
      ensures !state.auth.isAuthenticated && state.auth == InitialAuth(startupToken).(isAuthenticated := false)
      ensures state.currentStep == Welcome && state.previousStep == old(state.previousStep)
      ensures forall k :: k != AuthSlice && k != Navigation ==> Agrees(old(state), state, k)
    {
      requests := requests + [LogoutRequest];
      ghost var s0 := state;
      storedToken := None;
      Dispatch(Logout);
      ReduceWritesOnly(s0, Logout, startupToken);
      rejected := call.Threw?;
    }

    /** `verifyOTP`: success clears the code, hides the code form and moves the
        registration to personal information; failure records the error and
        keeps the sub-step. The `verified` flag of the response is not read. */
    method VerifyOtp(phone: string, otp: string, call: Call<bool>)
      requires Valid()
      modifies this`state, this`dispatched, this`requests
      ensures Valid()
      ensures requests == old(requests) + [VerifyOtpRequest(phone, otp)]
      ensures dispatched == old(dispatched) + VerifyOtpActions(call)
      ensures Succeeded(call) ==>
        state.onboarding == old(state.onboarding).(loading := false, otpSent := false, otp := "", step := PersonalInfo)
      ensures !Succeeded(call) ==>
        state.onboarding == old(state.onboarding).(loading := false, error := Some(FailureMessage(call, OtpVerificationFailed)))
      ensures forall k :: k != OnboardingSlice ==> Agrees(old(state), state, k)
    {
      requests := requests + [VerifyOtpRequest(phone, otp)];
      ghost var s0 := state;
      Dispatch(UpdateOnboarding(OnboardingLoading));
      ghost var s1 := state;
      if Succeeded(call) {
        var done := NoOnboardingKeys.(loading := Some(false), otpSent := Some(false), otp := Some(""));
        Dispatch(UpdateOnboarding(done));
        ghost var s2 := state;
        Dispatch(SetOnboardingStep(PersonalInfo));
        ReduceWritesOnly(s1, UpdateOnboarding(done), startupToken);
        ReduceWritesOnly(s2, SetOnboardingStep(PersonalInfo), startupToken);
      } else {
        var failed := OnboardingFailure(FailureMessage(call, OtpVerificationFailed));
        Dispatch(UpdateOnboarding(failed));
        ReduceWritesOnly(s1, UpdateOnboarding(failed), startupToken);
      }
      ReduceWritesOnly(s0, UpdateOnboarding(OnboardingLoading), startupToken);
    }

    /** `requestOTP`: success shows the code form and stores the number;
        failure records the error. */
    method RequestOtp(phone: string, call: Call<bool>)
      requires Valid()
      modifies this`state, this`dispatched, this`requests
      ensures Valid()
      ensures requests == old(requests) + [RequestOtpRequest(phone)]
      ensures dispatched == old(dispatched) + RequestOtpActions(phone, call)
      ensures Succeeded(call) ==>
        state.onboarding == old(state.onboarding).(loading := false, otpSent := true, phone := phone)
      ensures !Succeeded(call) ==>
        state.onboarding == old(state.onboarding).(loading := false, error := Some(FailureMessage(call, OtpSendFailed)))
      ensures forall k :: k != OnboardingSlice ==> Agrees(old(state), state, k)
    {
      requests := requests + [RequestOtpRequest(phone)];
      ghost var s0 := state;
      Dispatch(UpdateOnboarding(OnboardingLoading));
      ghost var s1 := state;
      var next := if Succeeded(call)
        then NoOnboardingKeys.(loading := Some(false), otpSent := Some(true), phone := Some(phone))
        else OnboardingFailure(FailureMessage(call, OtpSendFailed));
      Dispatch(UpdateOnboarding(next));
      ReduceWritesOnly(s0, UpdateOnboarding(OnboardingLoading), startupToken);
      ReduceWritesOnly(s1, UpdateOnboarding(next), startupToken);
    }

    /** `validateReferralCode`. */
    method ValidateReferralCode(code: string, call: Call<ReferralCheck>) returns (valid: bool)
      modifies this`requests
      ensures requests == old(requests) + [ValidateReferralRequest(code)]
      ensures valid == ReferralValid(call)
    {
      requests := requests + [ValidateReferralRequest(code)];
      valid := ReferralValid(call);
    }

    /** `calculatePrice`: nothing without a selected product; otherwise the
        price is stored on success. The loading flag and the error it uses
        belong to the onboarding slice. */
    method CalculatePrice(call: Call<real>)
      requires Valid()
      modifies this`state, this`dispatched, this`requests
      ensures Valid()
      ensures !Truthy(old(state.productSelection.selectedProductId)) ==>
        state == old(state) && dispatched == old(dispatched) && requests == old(requests)
      ensures Truthy(old(state.productSelection.selectedProductId)) ==>
        requests == old(requests) + [CalculatePriceRequest(old(state.productSelection.selectedProductId.value),
                                       old(state.productSelection.selectedRiderIds),
                                       |old(state.productSelection.dependents)|)]
        && !state.onboarding.loading
      ensures Truthy(old(state.productSelection.selectedProductId)) && SucceededWithData(call) ==>
        state.productSelection == old(state.productSelection).(totalPrice := call.response.data.value)
        && state.onboarding == old(state.onboarding).(loading := false)
      ensures Truthy(old(state.productSelection.selectedProductId)) && !SucceededWithData(call) ==>
        state.productSelection == old(state.productSelection)
        && state.onboarding == old(state.onboarding).(loading := false, error := Some(FailureMessage(call, PriceCalculationFailed)))
      ensures forall k :: k != OnboardingSlice && k != ProductSlice ==> Agrees(old(state), state, k)
    {
      var ps := state.productSelection;
      if !Truthy(ps.selectedProductId) {
        return;
      }
      requests := requests + [CalculatePriceRequest(ps.selectedProductId.value, ps.selectedRiderIds, |ps.dependents|)];
      PriceDispatches(call);
    }

    /** The dispatches of `calculatePrice` once a product is selected. */
    method PriceDispatches(call: Call<real>)
      requires Valid()
      modifies this`state, this`dispatched
      ensures Valid()
      ensures SucceededWithData(call) ==>
        state.productSelection == old(state.productSelection).(totalPrice := call.response.data.value)
        && state.onboarding == old(state.onboarding).(loading := false)
      ensures !SucceededWithData(call) ==>
        state.productSelection == old(state.productSelection)
        && state.onboarding == old(state.onboarding).(loading := false, error := Some(FailureMessage(call, PriceCalculationFailed)))
      ensures forall k :: k != OnboardingSlice && k != ProductSlice ==> Agrees(old(state), state, k)
    {
      ghost var s0 := state;
      Dispatch(UpdateOnboarding(OnboardingLoading));
      ghost var s1 := state;
      if SucceededWithData(call) {
        Dispatch(SetProductPrice(call.response.data.value));
        ghost var s2 := state;
        var done := NoOnboardingKeys.(loading := Some(false));
        Dispatch(UpdateOnboarding(done));
        ReduceWritesOnly(s1, SetProductPrice(call.response.data.value), startupToken);
        ReduceWritesOnly(s2, UpdateOnboarding(done), startupToken);
      } else {
        var failed := OnboardingFailure(FailureMessage(call, PriceCalculationFailed));
        Dispatch(UpdateOnboarding(failed));
        ReduceWritesOnly(s1, UpdateOnboarding(failed), startupToken);
      }
      ReduceWritesOnly(s0, UpdateOnboarding(OnboardingLoading), startupToken);
    }

    /** `submitUnderwriting`: always approved, with a policy id made from the
        clock reading, then on to payment. Its `loading: true` on the
        onboarding slice is never cleared. */
    method SubmitUnderwriting(timestamp: string)
      requires Valid()
      modifies this`state, this`dispatched
      ensures Valid()
      ensures dispatched == old(dispatched) + [
        UpdateOnboarding(OnboardingLoading),
        SetUnderwritingSuccess(ApprovedStatus, ApprovedMessage, "policy-" + timestamp),
        SetStep(Payment)]
      ensures state.underwriting == old(state.underwriting).(status := Some(ApprovedStatus),
        message := Some(ApprovedMessage), policyId := Some("policy-" + timestamp), loading := false)
      ensures state.currentStep == Payment && state.previousStep == Some(old(state.currentStep))
      ensures state.onboarding == old(state.onboarding).(loading := true)
      ensures forall k :: k != OnboardingSlice && k != UnderwritingSlice && k != Navigation ==> Agrees(old(state), state, k)
    {
      ghost var s0 := state;
      Dispatch(UpdateOnboarding(OnboardingLoading));
      ghost var s1 := state;
      var approved := SetUnderwritingSuccess(ApprovedStatus, ApprovedMessage, "policy-" + timestamp);
      Dispatch(approved);
      ghost var s2 := state;
      Dispatch(SetStep(Payment));
      ReduceWritesOnly(s0, UpdateOnboarding(OnboardingLoading), startupToken);
      ReduceWritesOnly(s1, approved, startupToken);
      ReduceWritesOnly(s2, SetStep(Payment), startupToken);
    }

    /** `setupPayment`: stores the bank details as verified, then on to the
        dashboard. */
    method SetupPayment(data: PaymentSetup)
      requires Valid()
      modifies this`state, this`dispatched
      ensures Valid()
      ensures state.payment == old(state.payment).(bankAccount := data.bankAccount, bankCode := data.bankCode,
        accountHolder := data.accountHolder, verificationStatus := Some(Verified), loading := false)
      ensures state.currentStep == Dashboard && state.previousStep == Some(old(state.currentStep))
      ensures forall k :: k != PaymentSlice && k != Navigation ==> Agrees(old(state), state, k)
      ensures dispatched == old(dispatched) + [
        UpdatePayment(NoPaymentKeys.(loading := Some(true))),
        UpdatePayment(PaymentPatch(Some(data.bankAccount), Some(data.bankCode), Some(data.accountHolder),
                                   Some(Some(Verified)), Some(false), None)),
        SetStep(Dashboard)]
    {
      ghost var s0 := state;
      var loading := NoPaymentKeys.(loading := Some(true));
      Dispatch(UpdatePayment(loading));
      ghost var s1 := state;
      var details := PaymentPatch(Some(data.bankAccount), Some(data.bankCode), Some(data.accountHolder),
                                  Some(Some(Verified)), Some(false), None);
      Dispatch(UpdatePayment(details));
      ghost var s2 := state;
      Dispatch(SetStep(Dashboard));
      ReduceWritesOnly(s0, UpdatePayment(loading), startupToken);
      ReduceWritesOnly(s1, UpdatePayment(details), startupToken);
      ReduceWritesOnly(s2, SetStep(Dashboard), startupToken);
    }

    /** `fetchPolicies`: a successful response with data replaces the policy
        list; anything else changes nothing. */
    method FetchPolicies(call: Call<seq<Policy>>)
      requires Valid()
      modifies this`state, this`dispatched, this`requests
      ensures Valid()
      ensures requests == old(requests) + [GetPoliciesRequest]
      ensures SucceededWithData(call) ==>
        state == old(state).(policies := call.response.data.value) && dispatched == old(dispatched) + [SetPolicies(call.response.data.value)]
      ensures !SucceededWithData(call) ==> state == old(state) && dispatched == old(dispatched)
    {
      requests := requests + [GetPoliciesRequest];
      if SucceededWithData(call) {
        Dispatch(SetPolicies(call.response.data.value));
      }
    }
  }

  /** On a fresh page with no stored token: a failed login keeps the welcome
      stage; a later successful one reaches the dashboard, and back returns
      to welcome. */
  method LoginScenario(user: User) returns (p: AppContextProvider)
    ensures p.state.currentStep == Welcome && p.state.auth.isAuthenticated
    ensures p.state.auth.token == Some("tok") && p.storedToken == Some("tok")
  {
    p := new AppContextProvider(None);
    p.Login(LoginData("0821234567", "wrong"), Returned(ApiResponse(false, None, Some(""))));
    assert p.state.auth.error == Some(LoginFailed) && p.state.currentStep == Welcome;
    p.Login(LoginData("0821234567", "right"), Returned(ApiResponse(true, Some(Session(user, "tok")), None)));
    assert p.state.currentStep == Dashboard;
    p.Dispatch(GoBack);
  }
}

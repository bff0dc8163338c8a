/** The application-level state container: its stages, its slices, and the
    actions its reducer understands. */
module AppTypes {
  import opened Types

  /** The sub-steps of the registration form. */
  datatype OnboardingStep = PhoneVerification | PersonalInfo | KycVerification | Complete

  /** The outer stages of the user journey. */
  datatype ApplicationStep = Welcome | Onboarding | Products | Underwriting | Payment | Dashboard

  /** A registered user, as the authentication service returns it; the reducer
      only stores it. */
  datatype User = User(id: string, phone: string, firstName: string, lastName: string, idNumber: string)

  /** A policy held by the user; the reducer only stores it. */
  datatype Policy = Policy(id: string, productId: string, status: string)

  datatype OnboardingState = OnboardingState(
    step: OnboardingStep,
    phone: string,
    otp: string,
    otpSent: bool,
    firstName: string,
    lastName: string,
    idNumber: string,
    dateOfBirth: string,
    referralCode: Option<string>,
    loading: bool,
    error: Option<string>)

  datatype Dependent = Dependent(name: string, relationship: string, dateOfBirth: string)

  /** `totalPrice` is a JavaScript number; the reducer only stores it. */
  datatype ProductSelectionState = ProductSelectionState(
    selectedProductId: Option<string>,
    selectedRiderIds: seq<string>,
    dependents: seq<Dependent>,
    totalPrice: real,
    loading: bool,
    error: Option<string>)

  /** `status` holds whatever string the success action carries: the reducer
      casts it without checking it against `pending | approved | rejected`.
      Answer values are `unknown` in the source and are kept as strings here. */
  datatype UnderwritingState = UnderwritingState(
    policyId: Option<string>,
    answers: map<string, string>,
    status: Option<string>,
    message: Option<string>,
    loading: bool,
    error: Option<string>)

  datatype VerificationStatus = Pending | Verified | Failed

  datatype PaymentState = PaymentState(
    bankAccount: string,
    bankCode: string,
    accountHolder: string,
    verificationStatus: Option<VerificationStatus>,
    loading: bool,
    error: Option<string>)

  datatype AuthState = AuthState(
    isAuthenticated: bool,
    user: Option<User>,
    token: Option<string>,
    loading: bool,
    error: Option<string>)

  datatype AppState = AppState(
    currentStep: ApplicationStep,
    previousStep: Option<ApplicationStep>,
    auth: AuthState,
    onboarding: OnboardingState,
    productSelection: ProductSelectionState,
    underwriting: UnderwritingState,
    payment: PaymentState,
    policies: seq<Policy>,
    activePolicyId: Option<string>)

  /** A `Partial<OnboardingState>`: `None` is a missing key. The optional
      fields carry `Some(None)` for a key that is present and holds `null`. */
  datatype OnboardingPatch = OnboardingPatch(
    step: Option<OnboardingStep>,
    phone: Option<string>,
    otp: Option<string>,
    otpSent: Option<bool>,
    firstName: Option<string>,
    lastName: Option<string>,
    idNumber: Option<string>,
    dateOfBirth: Option<string>,
    referralCode: Option<Option<string>>,
    loading: Option<bool>,
    error: Option<Option<string>>)

  const NoOnboardingKeys := OnboardingPatch(None, None, None, None, None, None, None, None, None, None, None)

  /** A `Partial<PaymentState>`, in the same convention. */
  datatype PaymentPatch = PaymentPatch(
    bankAccount: Option<string>,
    bankCode: Option<string>,
    accountHolder: Option<string>,
    verificationStatus: Option<Option<VerificationStatus>>,
    loading: Option<bool>,
    error: Option<Option<string>>)

  const NoPaymentKeys := PaymentPatch(None, None, None, None, None, None)

  /** The actions of the reducer. `Unrecognised` stands for any object whose
      `type` is none of the others, which the reducer's default case receives. */
  datatype Action =
    | SetStep(step: ApplicationStep)
    | GoBack
    | SetAuthLoading(loading: bool)
    | SetAuthSuccess(user: User, token: string)
    | SetAuthError(message: string)
    | Logout
    | SetOnboardingStep(onboardingStep: OnboardingStep)
    | UpdateOnboarding(onboardingPatch: OnboardingPatch)
    | SelectProduct(productId: string)
    | ToggleRider(riderId: string)
    | AddDependent(dependent: Dependent)
    | RemoveDependent(index: int)
    | SetProductPrice(price: real)
    | UpdateUnderwritingAnswers(answers: map<string, string>)
    | SetUnderwritingSuccess(status: string, message: string, policyId: string)
    | UpdatePayment(paymentPatch: PaymentPatch)
    | SetPolicies(policies: seq<Policy>)
    | SetActivePolicy(policyId: string)
    | Unrecognised(tag: string)

  /** The authentication slice at start-up, read from the token found in
      storage: authenticated exactly when that token is a non-empty string. */
  function InitialAuth(storedToken: Option<string>): (a: AuthState)
    ensures a.isAuthenticated <==> Truthy(storedToken)
    ensures a.token == storedToken && a.user == None && !a.loading && a.error == None
  {
    AuthState(Truthy(storedToken), None, storedToken, false, None)
  }

  const InitialOnboarding := OnboardingState(PhoneVerification, "", "", false, "", "", "", "", None, false, None)
  const InitialProductSelection := ProductSelectionState(None, [], [], 0.0, false, None)
  const InitialUnderwriting := UnderwritingState(None, map[], None, None, false, None)
  const InitialPayment := PaymentState("", "", "", None, false, None)

  /** The state the provider starts in. */
  function InitialState(storedToken: Option<string>): (s: AppState)
    ensures s.currentStep == Welcome && s.previousStep == None
    ensures s.auth == InitialAuth(storedToken) && s.policies == [] && s.activePolicyId == None
  {
    AppState(Welcome, None, InitialAuth(storedToken), InitialOnboarding, InitialProductSelection,
             InitialUnderwriting, InitialPayment, [], None)
  }
}

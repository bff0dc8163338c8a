/** The application reducer: a pure transition from a state and an action to
    the next state, and the laws its cases obey. */
module AppReducer {
  import opened Types
  import opened AppTypes

  // ---------------------------------------------------------------------
  // List helpers: `filter` by value and by index.

  /** `xs.filter((id) => id !== x)`. */
  function Without(xs: seq<string>, x: string): (r: seq<string>)
    ensures |r| <= |xs|
    ensures forall y :: y in r <==> y in xs && y != x
  {
    if xs == [] then []
    else (if xs[0] == x then [] else [xs[0]]) + Without(xs[1..], x)
  }

  lemma {:induction false} WithoutAbsent(xs: seq<string>, x: string)
    requires x !in xs
    ensures Without(xs, x) == xs
  {
    if xs != [] {
      WithoutAbsent(xs[1..], x);
    }
  }

  lemma {:induction false} WithoutAppend(xs: seq<string>, ys: seq<string>, x: string)
    ensures Without(xs + ys, x) == Without(xs, x) + Without(ys, x)
  {
    if xs == [] {
      assert xs + ys == ys;
    } else {
      assert (xs + ys)[1..] == xs[1..] + ys;
      WithoutAppend(xs[1..], ys, x);
    }
  }

  /** The rider list after `TOGGLE_RIDER x`: drop every copy of a present id,
      append an absent one. */
  function Toggle(xs: seq<string>, x: string): (r: seq<string>)
    ensures forall y :: y in r <==> (if y == x then x !in xs else y in xs)
  {
    if x in xs then Without(xs, x) else xs + [x]
  }

  /** Toggling an absent id twice restores the list. */
  lemma ToggleTwice(xs: seq<string>, x: string)
    requires x !in xs
    ensures Toggle(Toggle(xs, x), x) == xs
  {
    WithoutAppend(xs, [x], x);
    WithoutAbsent(xs, x);
    assert Without([x], x) == [];
  }

  /** `xs.filter((_, i) => i !== k)` applied to the elements numbered from `from`. */
  function FilterIndex<T>(xs: seq<T>, k: int, from: int): seq<T>
  {
    if xs == [] then []
    else (if from == k then [] else [xs[0]]) + FilterIndex(xs[1..], k, from + 1)
  }

  /** `xs.filter((_, i) => i !== k)`. */
  function DropIndex<T>(xs: seq<T>, k: int): seq<T>
  {
    FilterIndex(xs, k, 0)
  }

  lemma {:induction false} FilterIndexIsSlice<T>(xs: seq<T>, k: int, from: int)
    ensures from <= k < from + |xs| ==> FilterIndex(xs, k, from) == xs[..k - from] + xs[k - from + 1..]
    ensures !(from <= k < from + |xs|) ==> FilterIndex(xs, k, from) == xs
  {
    if xs != [] {
      FilterIndexIsSlice(xs[1..], k, from + 1);
      if from == k {
        assert xs[..0] + xs[1..] == xs[1..];
      } else if from < k < from + |xs| {
        assert [xs[0]] + (xs[1..][..k - from - 1] + xs[1..][k - from..]) == xs[..k - from] + xs[k - from + 1..];
      } else {
        assert [xs[0]] + xs[1..] == xs;
      }
    }
  }

  /** `REMOVE_DEPENDENT k` drops exactly the element at `k`, and nothing when
      `k` is not an index of the list. */
  lemma DropIndexSpec<T>(xs: seq<T>, k: int)
    ensures 0 <= k < |xs| ==> DropIndex(xs, k) == xs[..k] + xs[k + 1..]
    ensures 0 <= k < |xs| ==> |DropIndex(xs, k)| == |xs| - 1
    ensures !(0 <= k < |xs|) ==> DropIndex(xs, k) == xs
  {
    FilterIndexIsSlice(xs, k, 0);
  }

  // ---------------------------------------------------------------------
  // Spread merges of a partial slice.

  function Pick<T>(key: Option<T>, current: T): T
  {
    if key.Some? then key.value else current
  }

  /** `{ ...o, ...p }`. */
  function MergeOnboarding(o: OnboardingState, p: OnboardingPatch): OnboardingState
  {
    OnboardingState(
      Pick(p.step, o.step), Pick(p.phone, o.phone), Pick(p.otp, o.otp), Pick(p.otpSent, o.otpSent),
      Pick(p.firstName, o.firstName), Pick(p.lastName, o.lastName), Pick(p.idNumber, o.idNumber),
      Pick(p.dateOfBirth, o.dateOfBirth), Pick(p.referralCode, o.referralCode),
      Pick(p.loading, o.loading), Pick(p.error, o.error))
  }

  /** `{ ...pm, ...p }`. */
  function MergePayment(pm: PaymentState, p: PaymentPatch): PaymentState
  {
    PaymentState(
      Pick(p.bankAccount, pm.bankAccount), Pick(p.bankCode, pm.bankCode),
      Pick(p.accountHolder, pm.accountHolder), Pick(p.verificationStatus, pm.verificationStatus),
      Pick(p.loading, pm.loading), Pick(p.error, pm.error))
  }

  /** The keys of `q` win over those of `p`. */
  function CombineOnboarding(p: OnboardingPatch, q: OnboardingPatch): OnboardingPatch
  {
    OnboardingPatch(
      Or(q.step, p.step), Or(q.phone, p.phone), Or(q.otp, p.otp), Or(q.otpSent, p.otpSent),
      Or(q.firstName, p.firstName), Or(q.lastName, p.lastName), Or(q.idNumber, p.idNumber),
      Or(q.dateOfBirth, p.dateOfBirth), Or(q.referralCode, p.referralCode),
      Or(q.loading, p.loading), Or(q.error, p.error))
  }

  function Or<T>(a: Option<T>, b: Option<T>): Option<T>
  {
    if a.Some? then a else b
  }

  // ---------------------------------------------------------------------
  // The slices of the state, and which actions may touch which.

  datatype Slice = Navigation | AuthSlice | OnboardingSlice | ProductSlice | UnderwritingSlice | PaymentSlice | PoliciesSlice

  /** `s` and `r` hold the same value in slice `k`. */
  predicate Agrees(s: AppState, r: AppState, k: Slice)
  {
    match k
    case Navigation => s.currentStep == r.currentStep && s.previousStep == r.previousStep
    case AuthSlice => s.auth == r.auth
    case OnboardingSlice => s.onboarding == r.onboarding
    case ProductSlice => s.productSelection == r.productSelection
    case UnderwritingSlice => s.underwriting == r.underwriting
    case PaymentSlice => s.payment == r.payment
    case PoliciesSlice => s.policies == r.policies && s.activePolicyId == r.activePolicyId
  }

  /** Two states that agree on every slice are the same state: the seven
      slices cover every field, so the `Agrees` frames below leave nothing
      unaccounted for. */
  lemma AgreesEverywhere(s: AppState, r: AppState)
    requires forall k :: Agrees(s, r, k)
    ensures s == r
  {
    assert Agrees(s, r, Navigation) && Agrees(s, r, AuthSlice) && Agrees(s, r, OnboardingSlice);
    assert Agrees(s, r, ProductSlice) && Agrees(s, r, UnderwritingSlice) && Agrees(s, r, PaymentSlice);
    assert Agrees(s, r, PoliciesSlice);
  }

  /** The slices each action is allowed to write. */
  function Writes(a: Action): set<Slice>
  {
    match a
    case SetStep(_) => {Navigation}
    case GoBack => {Navigation}
    case SetAuthLoading(_) => {AuthSlice}
    case SetAuthSuccess(_, _) => {AuthSlice}
    case SetAuthError(_) => {AuthSlice}
    case Logout => {AuthSlice, Navigation}
    case SetOnboardingStep(_) => {OnboardingSlice}
    case UpdateOnboarding(_) => {OnboardingSlice}
    case SelectProduct(_) => {ProductSlice}
    case ToggleRider(_) => {ProductSlice}
    case AddDependent(_) => {ProductSlice}
    case RemoveDependent(_) => {ProductSlice}
    case SetProductPrice(_) => {ProductSlice}
    case UpdateUnderwritingAnswers(_) => {UnderwritingSlice}
    case SetUnderwritingSuccess(_, _, _) => {UnderwritingSlice}
    case UpdatePayment(_) => {PaymentSlice}
    case SetPolicies(_) => {PoliciesSlice}
    case SetActivePolicy(_) => {PoliciesSlice}
    case Unrecognised(_) => {}
  }

  // ---------------------------------------------------------------------
  // The reducer.

  /** `appReducer`. `storedToken` is the token storage held when the module was
      loaded, which fixed the initial authentication slice that `LOGOUT`
      restores. */
  function Reduce(s: AppState, a: Action, storedToken: Option<string>): AppState
  {
    match a
    case SetStep(t) => s.(previousStep := Some(s.currentStep), currentStep := t)
    case GoBack => s.(currentStep := if s.previousStep.Some? then s.previousStep.value else s.currentStep)
    case SetAuthLoading(b) => s.(auth := s.auth.(loading := b))
    case SetAuthSuccess(u, t) => s.(auth := AuthState(true, Some(u), Some(t), false, None))
    case SetAuthError(m) => s.(auth := s.auth.(loading := false, error := Some(m)))
    case Logout => s.(auth := InitialAuth(storedToken).(isAuthenticated := false), currentStep := Welcome)
    case SetOnboardingStep(st) => s.(onboarding := s.onboarding.(step := st))
    case UpdateOnboarding(p) => s.(onboarding := MergeOnboarding(s.onboarding, p))
    case SelectProduct(id) => s.(productSelection := s.productSelection.(selectedProductId := Some(id)))
    case ToggleRider(id) =>
      s.(productSelection := s.productSelection.(selectedRiderIds := Toggle(s.productSelection.selectedRiderIds, id)))
    case AddDependent(d) =>
      s.(productSelection := s.productSelection.(dependents := s.productSelection.dependents + [d]))
    case RemoveDependent(k) =>
      s.(productSelection := s.productSelection.(dependents := DropIndex(s.productSelection.dependents, k)))
    case SetProductPrice(p) => s.(productSelection := s.productSelection.(totalPrice := p))
    case UpdateUnderwritingAnswers(ans) => s.(underwriting := s.underwriting.(answers := ans))
    case SetUnderwritingSuccess(st, m, id) =>
      s.(underwriting := s.underwriting.(status := Some(st), message := Some(m), policyId := Some(id), loading := false))
    case UpdatePayment(p) => s.(payment := MergePayment(s.payment, p))
    case SetPolicies(ps) => s.(policies := ps)
    case SetActivePolicy(id) => s.(activePolicyId := Some(id))
    case Unrecognised(_) => s
  }

  /** A sequence of dispatches, applied in order. */
  function ReduceAll(s: AppState, actions: seq<Action>, storedToken: Option<string>): AppState
    decreases |actions|
  {
    if actions == [] then s
    else ReduceAll(Reduce(s, actions[0], storedToken), actions[1..], storedToken)
  }

  /** Two dispatches in a row. */
  lemma ReduceAllTwo(s: AppState, a: Action, b: Action, storedToken: Option<string>)
    ensures ReduceAll(s, [a, b], storedToken) == Reduce(Reduce(s, a, storedToken), b, storedToken)
  {
    var r := Reduce(s, a, storedToken);
    assert [a, b][1..] == [b] && [b][1..] == [];
    assert ReduceAll(s, [a, b], storedToken) == ReduceAll(r, [b], storedToken);
    assert ReduceAll(r, [b], storedToken) == ReduceAll(Reduce(r, b, storedToken), [], storedToken);
  }

  /** Every action leaves the slices it does not own unchanged. */
  lemma ReduceWritesOnly(s: AppState, a: Action, storedToken: Option<string>)
    ensures forall k :: k !in Writes(a) ==> Agrees(s, Reduce(s, a, storedToken), k)
  {
    match a
    case SetStep(_) =>
    case GoBack =>
    case SetAuthLoading(_) =>
    case SetAuthSuccess(_, _) =>
    case SetAuthError(_) =>
    case Logout =>
    case SetOnboardingStep(_) =>
    case UpdateOnboarding(_) =>
    case SelectProduct(_) =>
    case ToggleRider(_) =>
    case AddDependent(_) =>
    case RemoveDependent(_) =>
    case SetProductPrice(_) =>
    case UpdateUnderwritingAnswers(_) =>
    case SetUnderwritingSuccess(_, _, _) =>
    case UpdatePayment(_) =>
    case SetPolicies(_) =>
    case SetActivePolicy(_) =>
    case Unrecognised(_) =>
  }

  lemma {:induction false} ReduceAllAppend(s: AppState, xs: seq<Action>, ys: seq<Action>, storedToken: Option<string>)
    ensures ReduceAll(s, xs + ys, storedToken) == ReduceAll(ReduceAll(s, xs, storedToken), ys, storedToken)
    decreases |xs|
  {
    if xs == [] {
      assert xs + ys == ys;
    } else {
      assert (xs + ys)[1..] == xs[1..] + ys;
      ReduceAllAppend(Reduce(s, xs[0], storedToken), xs[1..], ys, storedToken);
    }
  }

  // ---------------------------------------------------------------------
  // Laws of the individual cases.

  /** `SET_STEP` records the stage it leaves and enters the target. */
  lemma SetStepRecordsPrevious(s: AppState, t: ApplicationStep, storedToken: Option<string>)
    ensures var r := Reduce(s, SetStep(t), storedToken);
      r.currentStep == t && r.previousStep == Some(s.currentStep)
      && forall k :: k != Navigation ==> Agrees(s, r, k)
  {
  }

  /** `GO_BACK` goes to the recorded stage when there is one, and leaves the
      record alone, so a second `GO_BACK` changes nothing. */
  lemma GoBackIdempotent(s: AppState, storedToken: Option<string>)
    ensures var r := Reduce(s, GoBack, storedToken);
      r.currentStep == (if s.previousStep.Some? then s.previousStep.value else s.currentStep)
      && r.previousStep == s.previousStep
      && Reduce(r, GoBack, storedToken) == r
  {
  }

  /** `SET_STEP` followed by `GO_BACK` returns to the stage the first left. */
  lemma GoBackUndoesSetStep(s: AppState, t: ApplicationStep, storedToken: Option<string>)
    ensures var r := ReduceAll(s, [SetStep(t), GoBack], storedToken);
      r.currentStep == s.currentStep && r.previousStep == Some(s.currentStep)
  {
    ReduceAllTwo(s, SetStep(t), GoBack, storedToken);
  }

  /** `LOGOUT` restores the start-up authentication slice, signed out, and
      returns to the welcome stage; `previousStep` and every other slice stay. */
  lemma LogoutResetsAuth(s: AppState, storedToken: Option<string>)
    ensures var r := Reduce(s, Logout, storedToken);
      !r.auth.isAuthenticated && r.auth.user == None && r.auth.token == storedToken
      && !r.auth.loading && r.auth.error == None
      && r.currentStep == Welcome && r.previousStep == s.previousStep
      && forall k :: k != AuthSlice && k != Navigation ==> Agrees(s, r, k)
  {
  }

  /** A successful authentication signs in with the given user and token; an
      error stops loading and keeps who is signed in. */
  lemma AuthOutcomes(s: AppState, u: User, t: string, m: string, storedToken: Option<string>)
    ensures Reduce(s, SetAuthSuccess(u, t), storedToken).auth == AuthState(true, Some(u), Some(t), false, None)
    ensures var r := Reduce(s, SetAuthError(m), storedToken).auth;
      !r.loading && r.error == Some(m)
      && r.isAuthenticated == s.auth.isAuthenticated && r.user == s.auth.user && r.token == s.auth.token
  {
  }

  /** `TOGGLE_RIDER` flips the membership of its id and of no other. */
  lemma ToggleRiderFlips(s: AppState, id: string, storedToken: Option<string>)
    ensures var r := Reduce(s, ToggleRider(id), storedToken).productSelection.selectedRiderIds;
      (id in r <==> id !in s.productSelection.selectedRiderIds)
      && forall y :: y != id ==> (y in r <==> y in s.productSelection.selectedRiderIds)
  {
  }

  /** `TOGGLE_RIDER` twice on an absent id restores the selection. */
  lemma ToggleRiderTwice(s: AppState, id: string, storedToken: Option<string>)
    requires id !in s.productSelection.selectedRiderIds
    ensures ReduceAll(s, [ToggleRider(id), ToggleRider(id)], storedToken) == s
  {
    ToggleTwice(s.productSelection.selectedRiderIds, id);
    ReduceAllTwo(s, ToggleRider(id), ToggleRider(id), storedToken);
  }

  /** `ADD_DEPENDENT` appends; `REMOVE_DEPENDENT k` drops exactly index `k`, or
      nothing when `k` is out of range. */
  lemma DependentOperations(s: AppState, d: Dependent, k: int, storedToken: Option<string>)
    ensures Reduce(s, AddDependent(d), storedToken).productSelection.dependents == s.productSelection.dependents + [d]
    ensures var xs := s.productSelection.dependents;
      var r := Reduce(s, RemoveDependent(k), storedToken).productSelection.dependents;
      (0 <= k < |xs| ==> r == xs[..k] + xs[k + 1..]) && (!(0 <= k < |xs|) ==> r == xs)
  {
    DropIndexSpec(s.productSelection.dependents, k);
  }

  /** Adding a dependent and then removing the last one restores the list. */
  lemma RemoveUndoesAdd(s: AppState, d: Dependent, storedToken: Option<string>)
    ensures var n := |s.productSelection.dependents|;
      ReduceAll(s, [AddDependent(d), RemoveDependent(n)], storedToken) == s
  {
    var xs := s.productSelection.dependents;
    DropIndexSpec(xs + [d], |xs|);
    assert (xs + [d])[..|xs|] + (xs + [d])[|xs| + 1..] == xs;
    ReduceAllTwo(s, AddDependent(d), RemoveDependent(|xs|), storedToken);
  }

  /** `UPDATE_ONBOARDING` writes exactly the keys present and keeps the rest
      (shown for the keys the action creators use). */
  lemma UpdateOnboardingWritesKeys(s: AppState, p: OnboardingPatch, storedToken: Option<string>)
    ensures var o := Reduce(s, UpdateOnboarding(p), storedToken).onboarding;
      (p.step.Some? ==> o.step == p.step.value) && (p.step.None? ==> o.step == s.onboarding.step)
      && (p.phone.Some? ==> o.phone == p.phone.value) && (p.phone.None? ==> o.phone == s.onboarding.phone)
      && (p.otpSent.Some? ==> o.otpSent == p.otpSent.value) && (p.otpSent.None? ==> o.otpSent == s.onboarding.otpSent)
      && (p.loading.Some? ==> o.loading == p.loading.value) && (p.loading.None? ==> o.loading == s.onboarding.loading)
      && (p.error.Some? ==> o.error == p.error.value) && (p.error.None? ==> o.error == s.onboarding.error)
  {
  }

  /** Merging two patches in turn is merging their combination. */
  lemma MergeOnboardingCombine(o: OnboardingState, p: OnboardingPatch, q: OnboardingPatch)
    ensures MergeOnboarding(MergeOnboarding(o, p), q) == MergeOnboarding(o, CombineOnboarding(p, q))
  {
  }

  /** Two updates are one update in which the later keys win, so repeating an
      update changes nothing. */
  lemma UpdateOnboardingLastWriteWins(s: AppState, p: OnboardingPatch, q: OnboardingPatch, storedToken: Option<string>)
    ensures ReduceAll(s, [UpdateOnboarding(p), UpdateOnboarding(q)], storedToken)
         == Reduce(s, UpdateOnboarding(CombineOnboarding(p, q)), storedToken)
    ensures ReduceAll(s, [UpdateOnboarding(p), UpdateOnboarding(p)], storedToken)
         == Reduce(s, UpdateOnboarding(p), storedToken)
  {
    ReduceAllTwo(s, UpdateOnboarding(p), UpdateOnboarding(q), storedToken);
    ReduceAllTwo(s, UpdateOnboarding(p), UpdateOnboarding(p), storedToken);
    MergeOnboardingCombine(s.onboarding, p, q);
    MergeOnboardingCombine(s.onboarding, p, p);
    assert CombineOnboarding(p, p) == p;
  }

  /** `UPDATE_PAYMENT` is a last-write-wins merge: repeating it changes nothing. */
  lemma UpdatePaymentIdempotent(s: AppState, p: PaymentPatch, storedToken: Option<string>)
    ensures var r := Reduce(s, UpdatePayment(p), storedToken);
      Reduce(r, UpdatePayment(p), storedToken) == r
      && (p.verificationStatus.Some? ==> r.payment.verificationStatus == p.verificationStatus.value)
      && (p.verificationStatus.None? ==> r.payment.verificationStatus == s.payment.verificationStatus)
  {
  }

  /** The default case: an action the reducer does not know returns the state. */
  lemma UnrecognisedIsNoOp(s: AppState, tag: string, storedToken: Option<string>)
    ensures Reduce(s, Unrecognised(tag), storedToken) == s
  {
    ReduceWritesOnly(s, Unrecognised(tag), storedToken);
    AgreesEverywhere(s, Reduce(s, Unrecognised(tag), storedToken));
  }

  // ---------------------------------------------------------------------
  // A state invariant kept by every dispatch sequence.

  /** Whoever is signed in holds a token. */
  predicate AuthConsistent(s: AppState)
  {
    s.auth.isAuthenticated ==> s.auth.token.Some?
  }

  lemma InitialAuthConsistent(storedToken: Option<string>)
    ensures AuthConsistent(InitialState(storedToken))
  {
  }

  lemma {:induction false} ReduceAllKeepsAuthConsistent(s: AppState, actions: seq<Action>, storedToken: Option<string>)
    requires AuthConsistent(s)
    ensures AuthConsistent(ReduceAll(s, actions, storedToken))
    decreases |actions|
  {
    if actions != [] {
      ReduceAllKeepsAuthConsistent(Reduce(s, actions[0], storedToken), actions[1..], storedToken);
    }
  }
}

/** The KYC session state container: the identity record, the step cursor in
    [1, 4], the shared loading flag and the shared error message, with the
    merge-update, navigation and reset primitives every step uses. */
module KycContext {
  import opened Types

  /** `initialKYCData`. */
  const InitialKycData := KYCData(1, "", Some(""), None, false, None)

  /** `{ ...prev, ...data }`: every key present in the patch wins, every other
      key keeps its old value. */
  function Merge(d: KYCData, p: KycPatch): KYCData
  {
    KYCData(
      if p.step.Some? then p.step.value else d.step,
      if p.phone.Some? then p.phone.value else d.phone,
      if p.idNumber.Some? then p.idNumber.value else d.idNumber,
      if p.idData.Some? then p.idData.value else d.idData,
      if p.biometricVerified.Some? then p.biometricVerified.value else d.biometricVerified,
      if p.documentUrl.Some? then p.documentUrl.value else d.documentUrl)
  }

  /** A property value of the JavaScript object, to read a record as a map from keys. */
  datatype JsValue = JsNumber(n: int) | JsString(s: string) | JsBool(b: bool) | JsIdData(id: IdData) | JsUndefined

  function StringValue(o: Option<string>): JsValue
  {
    if o.Some? then JsString(o.value) else JsUndefined
  }

  function IdDataValue(o: Option<IdData>): JsValue
  {
    if o.Some? then JsIdData(o.value) else JsUndefined
  }

  /** The six keys of a `KYCData` object. */
  datatype Key = StepKey | PhoneKey | IdNumberKey | IdDataKey | BiometricVerifiedKey | DocumentUrlKey

  const Keys: set<Key> := {StepKey, PhoneKey, IdNumberKey, IdDataKey, BiometricVerifiedKey, DocumentUrlKey}

  /** The record as the object it is in the source: one entry per key. */
  function AsObject(d: KYCData): map<Key, JsValue>
  {
    map[StepKey := JsNumber(d.step), PhoneKey := JsString(d.phone),
        IdNumberKey := StringValue(d.idNumber), IdDataKey := IdDataValue(d.idData),
        BiometricVerifiedKey := JsBool(d.biometricVerified), DocumentUrlKey := StringValue(d.documentUrl)]
  }

  /** The value the patch carries under key `k`, if it carries that key. */
  function PatchEntry(p: KycPatch, k: Key): Option<JsValue>
  {
    match k
    case StepKey => if p.step.Some? then Some(JsNumber(p.step.value)) else None
    case PhoneKey => if p.phone.Some? then Some(JsString(p.phone.value)) else None
    case IdNumberKey => if p.idNumber.Some? then Some(StringValue(p.idNumber.value)) else None
    case IdDataKey => if p.idData.Some? then Some(IdDataValue(p.idData.value)) else None
    case BiometricVerifiedKey => if p.biometricVerified.Some? then Some(JsBool(p.biometricVerified.value)) else None
    case DocumentUrlKey => if p.documentUrl.Some? then Some(StringValue(p.documentUrl.value)) else None
  }

  /** The patch as an object holding only the keys it carries. */
  function PatchObject(p: KycPatch): map<Key, JsValue>
  {
    map k | k in Keys && PatchEntry(p, k).Some? :: PatchEntry(p, k).value
  }

  /** Merging is the object spread: the old object overridden key by key by the patch. */
  lemma MergeIsSpread(d: KYCData, p: KycPatch)
    ensures AsObject(Merge(d, p)) == AsObject(d) + PatchObject(p)
  {
    var l, r := AsObject(Merge(d, p)), AsObject(d) + PatchObject(p);
    assert l.Keys == Keys;
    assert r.Keys == Keys;
    forall k | k in Keys ensures l[k] == r[k] {
      SpreadAt(d, p, k);
    }
  }

  lemma SpreadAt(d: KYCData, p: KycPatch, k: Key)
    ensures AsObject(Merge(d, p))[k]
         == if PatchEntry(p, k).Some? then PatchEntry(p, k).value else AsObject(d)[k]
    ensures k in PatchObject(p) <==> PatchEntry(p, k).Some?
    ensures k in PatchObject(p) ==> PatchObject(p)[k] == PatchEntry(p, k).value
  {
    match k
    case StepKey =>
    case PhoneKey =>
    case IdNumberKey =>
    case IdDataKey =>
    case BiometricVerifiedKey =>
    case DocumentUrlKey =>
  }

  /** Applying the same patch twice is applying it once. */
  lemma MergeIdempotent(d: KYCData, p: KycPatch)
    ensures Merge(Merge(d, p), p) == Merge(d, p)
  {
  }

  /** The empty patch changes nothing; a patch of every key replaces the record. */
  lemma MergeEmptyAndFull(d: KYCData, u: KYCData)
    ensures Merge(d, EmptyPatch) == d
    ensures Merge(d, FullPatch(u)) == u
  {
  }

  /** A cursor move: `nextStep`, `previousStep` or `setStep(n)`. */
  datatype Navigation = Next | Previous | SetTo(n: int)

  function Navigate(cursor: int, nav: Navigation): int
  {
    match nav
    case Next => if cursor < 4 then cursor + 1 else cursor
    case Previous => if cursor > 1 then cursor - 1 else cursor
    case SetTo(n) => if 1 <= n <= 4 then n else cursor
  }

  function NavigateAll(cursor: int, navs: seq<Navigation>): int
    decreases |navs|
  {
    if navs == [] then cursor else NavigateAll(Navigate(cursor, navs[0]), navs[1..])
  }

  /** Starting inside [1, 4], no sequence of moves leaves it. */
  lemma {:induction false} NavigateAllInRange(cursor: int, navs: seq<Navigation>)
    requires 1 <= cursor <= 4
    ensures 1 <= NavigateAll(cursor, navs) <= 4
    decreases |navs|
  {
    if navs != [] {
      NavigateAllInRange(Navigate(cursor, navs[0]), navs[1..]);
    }
  }

  /** Inside the bounds, back undoes next and next undoes back. */
  lemma NextPreviousInverse(cursor: int)
    ensures 1 <= cursor < 4 ==> Navigate(Navigate(cursor, Next), Previous) == cursor
    ensures 1 < cursor <= 4 ==> Navigate(Navigate(cursor, Previous), Next) == cursor
  {
  }

  /** The `KYCProvider` state: four cells and their setters. */
  class KycSession {
    var kycData: KYCData
    var currentStep: int
    var isLoading: bool
    var error: Option<string>

    ghost predicate Valid()
      reads this
    {
      1 <= currentStep <= 4
    }

    constructor ()
      ensures Valid()
      ensures kycData == InitialKycData && currentStep == 1 && !isLoading && error == None
    {
      kycData := InitialKycData;
      currentStep := 1;
      isLoading := false;
      error := None;
    }

    /** `updateKYCData`. */
    method UpdateKycData(p: KycPatch)
      modifies this`kycData
      ensures kycData == Merge(old(kycData), p)
    {
      kycData := Merge(kycData, p);
    }

    /** `nextStep`; it can only change the cursor. */
    method NextStep()
      modifies this`currentStep
      ensures old(currentStep) < 4 ==> currentStep == old(currentStep) + 1
      ensures old(currentStep) >= 4 ==> currentStep == old(currentStep)
      ensures currentStep == Navigate(old(currentStep), Next)
    {
      if currentStep < 4 {
        currentStep := currentStep + 1;
      }
    }

    /** `previousStep`; it can only change the cursor. */
    method PreviousStep()
      modifies this`currentStep
      ensures old(currentStep) > 1 ==> currentStep == old(currentStep) - 1
      ensures old(currentStep) <= 1 ==> currentStep == old(currentStep)
      ensures currentStep == Navigate(old(currentStep), Previous)
    {
      if currentStep > 1 {
        currentStep := currentStep - 1;
      }
    }

    /** `setStep`: out-of-range targets are ignored; it can only change the cursor. */
    method SetStep(n: int)
      modifies this`currentStep
      ensures 1 <= n <= 4 ==> currentStep == n
      ensures !(1 <= n <= 4) ==> currentStep == old(currentStep)
      ensures currentStep == Navigate(old(currentStep), SetTo(n))
    {
      if 1 <= n <= 4 {
        currentStep := n;
      }
    }

    method SetError(e: Option<string>)
      modifies this`error
      ensures error == e
    {
      error := e;
    }

    method SetLoading(b: bool)
      modifies this`isLoading
      ensures isLoading == b
    {
      isLoading := b;
    }

    /** `resetKYC`: initial record, first step, no error; the loading flag is kept. */
    method ResetKyc()
      modifies this`kycData, this`currentStep, this`error
      ensures Valid()
      ensures kycData == InitialKycData && currentStep == 1 && error == None
    {
      kycData := InitialKycData;
      currentStep := 1;
      error := None;
    }
  }
}

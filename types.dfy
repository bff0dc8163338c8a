/** Values shared by the KYC flow: the optional-value wrapper, the response shape
    every service call returns, the identity record and its partial update. */
module Types {

  /** A value that may be absent (`undefined` or `null` in the source). */
  datatype Option<T> = None | Some(value: T)

  /** JavaScript truthiness of an optional string: present and not empty. */
  predicate Truthy(s: Option<string>)
  {
    s.Some? && s.value != ""
  }

  /** The `{ success, data?, error? }` record every service call resolves to. */
  datatype ApiResponse<T> = ApiResponse(success: bool, data: Option<T>, error: Option<string>)

  /** `response.error || fallback`: the service's message when it is a non-empty string. */
  function ErrorOr(error: Option<string>, fallback: string): string
  {
    if Truthy(error) then error.value else fallback
  }

  /** The `idData` part of the identity record. */
  datatype IdData = IdData(
    firstName: string,
    lastName: string,
    dateOfBirth: string,
    idNumber: Option<string>,
    idType: Option<string>)

  /** The identity record accumulated by the four KYC steps. */
  datatype KYCData = KYCData(
    step: int,
    phone: string,
    idNumber: Option<string>,
    idData: Option<IdData>,
    biometricVerified: bool,
    documentUrl: Option<string>)

  /** A `Partial<KYCData>`: `None` is a key that is missing; for the optional
      fields `Some(None)` is a key that is present and holds `undefined`. */
  datatype KycPatch = KycPatch(
    step: Option<int>,
    phone: Option<string>,
    idNumber: Option<Option<string>>,
    idData: Option<Option<IdData>>,
    biometricVerified: Option<bool>,
    documentUrl: Option<Option<string>>)

  /** The patch with no keys. */
  const EmptyPatch := KycPatch(None, None, None, None, None, None)

  /** The patch that carries every key of `d` (a spread of the whole record). */
  function FullPatch(d: KYCData): KycPatch
  {
    KycPatch(Some(d.step), Some(d.phone), Some(d.idNumber), Some(d.idData),
             Some(d.biometricVerified), Some(d.documentUrl))
  }

  /** A request sent to an external service, as recorded in a step's call log. */
  datatype Request =
    | SendOtp(phone: string)
    | CheckOtp(phone: string, otp: string)
    | ProcessIdDocument(image: string, idType: string)
    | VerifyIdWithAuthority(idNumber: string)
    | VerifyBiometric(selfie: string, idImage: string)
    | SaveKycData(record: KYCData)

  /** One service call together with the session's loading flag while it was pending. */
  datatype ServiceCall = ServiceCall(request: Request, loadingWhilePending: bool)
}

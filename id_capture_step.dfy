/** The ID capture step: accept an image of at most 5 MB, have the OCR service
    extract the identity fields, then have the authority confirm the ID number.
    The selected file is given by its MIME type, its size and the data URL the
    file reader produces; the two service calls arrive as response parameters. */
module IdCapture {
  import opened Types
  import opened Text
  import opened KycContext

  const NotImageMessage := "Please upload an image file"
  const TooLargeMessage := "File size must be less than 5MB"
  const OcrFallback := "Failed to extract ID data. Please try again."
  const NoIdMessage := "No ID data extracted"
  const IdRejectedMessage := "ID verification failed. Please ensure your document is valid."

  /** 5 MB, the largest accepted file. */
  const MaxFileSize: int := 5 * 1024 * 1024

  datatype IdType = NationalId | Passport

  function IdTypeName(t: IdType): string
  {
    match t
    case NationalId => "national_id"
    case Passport => "passport"
  }

  /** What the OCR service extracts. */
  datatype OcrResult = OcrResult(firstName: string, lastName: string, dateOfBirth: string, idNumber: string, idType: IdType)

  /** What the authority answers. */
  datatype IdVerificationResult = IdVerificationResult(verified: bool, matchScore: real)

  /** The file the input delivers. */
  datatype SelectedFile = SelectedFile(mimeType: string, size: int, dataUrl: string)

  function ExtractedIdData(r: OcrResult): IdData
  {
    IdData(r.firstName, r.lastName, r.dateOfBirth, Some(r.idNumber), Some(IdTypeName(r.idType)))
  }

  /** The keys a successful extraction writes: `idNumber`, `idData` and `documentUrl`. */
  function OcrPatch(r: OcrResult, documentUrl: Option<string>): KycPatch
  {
    EmptyPatch.(idNumber := Some(Some(r.idNumber)), idData := Some(Some(ExtractedIdData(r))),
                documentUrl := Some(documentUrl))
  }

  /** The type and size guard run before any OCR call. */
  predicate FileAccepted(f: SelectedFile)
  {
    StartsWith(f.mimeType, "image/") && f.size <= MaxFileSize
  }

  lemma FileGuardBoundary(f: SelectedFile)
    requires StartsWith(f.mimeType, "image/")
    ensures f.size == 5242880 ==> FileAccepted(f)
    ensures f.size == 5242881 ==> !FileAccepted(f)
  {
  }

  /** A successful extraction writes the three ID keys and leaves `phone`,
      `biometricVerified` and `step` as they were. */
  lemma OcrPatchKeepsOtherSteps(d: KYCData, r: OcrResult, url: Option<string>)
    ensures var m := Merge(d, OcrPatch(r, url));
      m.phone == d.phone && m.biometricVerified == d.biometricVerified && m.step == d.step
      && m.idNumber == Some(r.idNumber) && m.idData == Some(ExtractedIdData(r)) && m.documentUrl == url
  {
  }

  class IdCaptureStep {
    const ctx: KycSession
    var idType: IdType
    var preview: Option<string>
    var extractedData: Option<IdData>
    ghost var calls: seq<ServiceCall>

    /** The extracted data shown is the record's `idData`. */
    ghost predicate Inv()
      reads this, ctx
    {
      extractedData == ctx.kycData.idData
    }

    /** Mounting: the extracted data starts from the record's `idData`. */
    constructor (ctx: KycSession)
      ensures this.ctx == ctx && Inv()
      ensures idType == NationalId && preview == None && extractedData == ctx.kycData.idData && calls == []
    {
      this.ctx := ctx;
      idType := NationalId;
      preview := None;
      extractedData := ctx.kycData.idData;
      calls := [];
    }

    /** The upload control and the ID-type radios are enabled only while nothing
        is loading and nothing has been extracted. */
    predicate UploadEnabled()
      reads this, ctx
    {
      !ctx.isLoading && extractedData.None?
    }

    method SetIdType(t: IdType)
      modifies this`idType
      ensures idType == t
    {
      idType := t;
    }

    /** The body of `handleFileSelect` once a file is present, with the value it
        stores as `documentUrl` passed in. `readOk` says whether the file reader
        delivers the data URL; when it rejects, the awaited read throws after
        loading was set, so loading stays on, no OCR call is made and the error
        cleared at the start stays cleared. */
    method Upload(file: SelectedFile, readOk: bool, response: ApiResponse<OcrResult>, documentUrl: Option<string>)
      modifies this`preview, this`extractedData, this`calls, ctx`kycData, ctx`error, ctx`isLoading
      ensures Inv() <== old(Inv())
      ensures ctx.isLoading == if FileAccepted(file) then !readOk else old(ctx.isLoading)
      ensures !FileAccepted(file) ==>
        ctx.error == Some(if !StartsWith(file.mimeType, "image/") then NotImageMessage else TooLargeMessage)
        && calls == old(calls) && ctx.kycData == old(ctx.kycData)
        && preview == old(preview) && extractedData == old(extractedData)
      ensures FileAccepted(file) && !readOk ==>
        ctx.error == None && calls == old(calls) && ctx.kycData == old(ctx.kycData)
        && preview == old(preview) && extractedData == old(extractedData)
      ensures FileAccepted(file) && readOk ==>
        preview == Some(file.dataUrl)
        && calls == old(calls) + [ServiceCall(ProcessIdDocument(file.dataUrl, IdTypeName(idType)), true)]
      ensures FileAccepted(file) && readOk && response.success && response.data.Some? ==>
        extractedData == Some(ExtractedIdData(response.data.value))
        && ctx.kycData == Merge(old(ctx.kycData), OcrPatch(response.data.value, documentUrl))
        && ctx.error == None && !UploadEnabled()
      ensures FileAccepted(file) && readOk && !(response.success && response.data.Some?) ==>
        extractedData == old(extractedData) && ctx.kycData == old(ctx.kycData)
        && ctx.error == Some(ErrorOr(response.error, OcrFallback))
    {
      ctx.SetError(None);
      if !StartsWith(file.mimeType, "image/") {
        ctx.SetError(Some(NotImageMessage));
        return;
      }
      if file.size > MaxFileSize {
        ctx.SetError(Some(TooLargeMessage));
        return;
      }
      if readOk {
        preview := Some(file.dataUrl);
      }
      ctx.SetLoading(true);
      if !readOk {
        return;
      }
      calls := calls + [ServiceCall(ProcessIdDocument(file.dataUrl, IdTypeName(idType)), ctx.isLoading)];
      if response.success && response.data.Some? {
        extractedData := Some(ExtractedIdData(response.data.value));
        ctx.UpdateKycData(OcrPatch(response.data.value, documentUrl));
      } else {
        ctx.SetError(Some(ErrorOr(response.error, OcrFallback)));
      }
      ctx.SetLoading(false);
    }

    /** `handleFileSelect` with `documentUrl` set to the image just read. */
    method HandleFileSelect(file: Option<SelectedFile>, readOk: bool, response: ApiResponse<OcrResult>)
      modifies this`preview, this`extractedData, this`calls, ctx`kycData, ctx`error, ctx`isLoading
      ensures Inv() <== old(Inv())
      ensures ctx.isLoading == if file.Some? && FileAccepted(file.value) then !readOk else old(ctx.isLoading)
      ensures file.None? ==>
        calls == old(calls) && ctx.kycData == old(ctx.kycData) && ctx.error == old(ctx.error)
        && preview == old(preview) && extractedData == old(extractedData)
      ensures file.Some? && FileAccepted(file.value) && readOk && response.success && response.data.Some? ==>
        ctx.kycData == Merge(old(ctx.kycData), OcrPatch(response.data.value, Some(file.value.dataUrl)))
        && extractedData == Some(ExtractedIdData(response.data.value)) && ctx.error == None && !UploadEnabled()
      ensures file.Some? && !(FileAccepted(file.value) && readOk && response.success && response.data.Some?) ==>
        ctx.kycData == old(ctx.kycData) && extractedData == old(extractedData)
        && (ctx.error.Some? <==> !FileAccepted(file.value) || readOk)
    {
      if file.None? {
        return;
      }
      Upload(file.value, readOk, response, Some(file.value.dataUrl));
    }

    /** `handleFileSelect` as the source writes it: `documentUrl` is the
        `preview` of the render the handler belongs to, which is the preview of
        the previous accepted file, or nothing on the first one. */
    method HandleFileSelectAsWritten(file: Option<SelectedFile>, readOk: bool, response: ApiResponse<OcrResult>)
      modifies this`preview, this`extractedData, this`calls, ctx`kycData, ctx`error, ctx`isLoading
      ensures Inv() <== old(Inv())
      ensures ctx.isLoading == if file.Some? && FileAccepted(file.value) then !readOk else old(ctx.isLoading)
      ensures file.None? ==>
        calls == old(calls) && ctx.kycData == old(ctx.kycData) && ctx.error == old(ctx.error)
        && preview == old(preview) && extractedData == old(extractedData)
      ensures file.Some? && FileAccepted(file.value) && readOk && response.success && response.data.Some? ==>
        ctx.kycData == Merge(old(ctx.kycData), OcrPatch(response.data.value, if Truthy(old(preview)) then old(preview) else None))
        && extractedData == Some(ExtractedIdData(response.data.value)) && ctx.error == None && !UploadEnabled()
      ensures file.Some? && !(FileAccepted(file.value) && readOk && response.success && response.data.Some?) ==>
        ctx.kycData == old(ctx.kycData) && extractedData == old(extractedData)
        && (ctx.error.Some? <==> !FileAccepted(file.value) || readOk)
    {
      if file.None? {
        return;
      }
      Upload(file.value, readOk, response, if Truthy(preview) then preview else None);
    }

    /** `handleVerifyID`. Without an extracted ID number there is no call; the
        step completes exactly when the authority answers `verified`. The record
        and the extracted data are never changed here. */
    method HandleVerifyId(response: ApiResponse<IdVerificationResult>) returns (completed: bool)
      modifies this`calls, ctx`error, ctx`isLoading
      ensures var hasId := extractedData.Some? && Truthy(extractedData.value.idNumber);
        && (!hasId ==> !completed && ctx.error == Some(NoIdMessage)
                       && calls == old(calls) && ctx.isLoading == old(ctx.isLoading))
        && (hasId ==>
              !ctx.isLoading
              && calls == old(calls) + [ServiceCall(VerifyIdWithAuthority(extractedData.value.idNumber.value), true)])
        && (hasId ==> (completed <==> response.success && response.data.Some? && response.data.value.verified))
        && (hasId && completed ==> ctx.error == old(ctx.error))
        && (hasId && !completed ==> ctx.error == Some(IdRejectedMessage))
      ensures completed ==> extractedData.Some? && Truthy(extractedData.value.idNumber)
    {
      if extractedData.None? || !Truthy(extractedData.value.idNumber) {
        ctx.SetError(Some(NoIdMessage));
        return false;
      }
      ctx.SetLoading(true);
      calls := calls + [ServiceCall(VerifyIdWithAuthority(extractedData.value.idNumber.value), ctx.isLoading)];
      if response.success && response.data.Some? && response.data.value.verified {
        completed := true;
      } else {
        ctx.SetError(Some(IdRejectedMessage));
        completed := false;
      }
      ctx.SetLoading(false);
    }
  }

  /** On a freshly mounted step the first successful upload, as written, stores
      no `documentUrl`, and the upload control is disabled from then on. */
  method FirstUploadStoresNoDocument(file: SelectedFile, r: OcrResult) returns (documentUrl: Option<string>, uploadEnabled: bool)
    requires FileAccepted(file)
    ensures documentUrl == None
    ensures !uploadEnabled
  {
    var session := new KycSession();
    var step := new IdCaptureStep(session);
    step.HandleFileSelectAsWritten(Some(file), true, ApiResponse(true, Some(r), None));
    documentUrl := session.kycData.documentUrl;
    uploadEnabled := step.UploadEnabled();
  }
}

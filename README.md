# KYC onboarding and application state — a Dafny model

This project models the identity-verification (KYC) onboarding flow of an
insurance web application, and the reducer that holds the application's
state. The model covers these parts:

- **The KYC session** (`KycContext`). A `KycSession` class holds the four
  state cells of the provider: the identity record, the step cursor in
  [1, 4], the loading flag and the error. Its setters are the provider's:
  spread-merge update, clamped next and previous, bounded `setStep`, and
  reset. The spread merge is also proved equal to an object-level
  `{ ...prev, ...data }` over a key map.
- **The step validator** (`KycService`). The per-step completion check is a
  predicate, the error list is a function, and the error-pushing
  `validateStep` is a method proved against both.
- **The four step components**. Each one is a class over its local state
  that holds a reference to the shared session. The components are
  `PhoneVerification`, `IdCapture`, `BiometricVerification` (whose media
  tracks are an array that `stopCamera` walks) and `PersonalDetails` (whose
  error record is filled field by field). Every handler is a method. Every
  service outcome is a parameter, and a ghost log records each request with
  the loading flag while it was pending.
- **The KYC page** (`KycFlow`). It shows the step the cursor selects,
  advances the cursor on completion, leaves for product selection after step
  4, and offers Back and Cancel. Each user control is a method whose
  precondition is that the control is shown and enabled. The class invariant
  carries the record facts every step keeps and the fact that every step
  before the cursor passes its check.
- **The application reducer** (`AppTypes`, `AppReducer`). `appReducer` is a
  pure function over the state slices. The laws of its cases are lemmas. A
  slice-frame lemma proves that each action writes only the slices it owns.
- **The action creators** (`AppProvider`). `AppContextProvider` keeps the
  reducer's state cell. Its ghost history of dispatched actions always
  replays to the current state. Each asynchronous action creator is a method
  that runs its fixed dispatch sequence, keyed on the modelled outcome of
  the awaited call: a resolved response, or a thrown error.
- **String utilities** (`Text`, `Utils`). Phone normalisation, ID masking
  and the validators are included, with each regular expression written out
  as a character-class predicate.

Behaviours of the code worth noting:

- A failed biometric match does not reset `biometricVerified`. It only drops
  the local selfie.
- A successful biometric match does not clear the error, and nothing clears
  it before the call. A "Biometric verification failed" message from an
  earlier attempt therefore stays on screen in step 4 until the details
  form is submitted (`KycFlow.KycFlow.VerifyBiometric`).
- No unmount clean-up releases the camera. Only capture and Cancel stop the
  tracks.
- `LOGOUT` restores the authentication slice read at start-up, not `null`
  (`AppReducer.LogoutResetsAuth`). After a logout, `auth.token` can
  therefore still hold the start-up token while storage is empty.
- `submitUnderwriting` sets the onboarding slice's `loading` and never
  clears it, and `calculatePrice` reports through the onboarding slice's
  `loading` and `error`.

The page model `KycFlow` is composed from the corrected halves of Findings
1 to 4: the corrected camera start, the corrected upload, the corrected
submit-button condition and the corrected hand-off. Its page invariant and
its step-4 exit are therefore proved for the corrected program. The
as-written halves are stated on their own in the "## Findings" rows.

## Model

| member | source | states |
|---|---|---|
| Text.Digits | src/framework/utils/index.ts:41 | `replace(/\D/g, '')` keeps only digits, never lengthens the input, and returns an all-digit input unchanged |
| Text.DigitsConcat | src/framework/utils/index.ts:41 | stripping non-digits from a concatenation is stripping each part and concatenating |
| Text.TrimStart | src/framework/components/KYC/PersonalDetailsStep.tsx:41 | removes exactly a whitespace prefix; the rest is empty or starts with a non-whitespace character |
| Text.TrimEnd | src/framework/components/KYC/PersonalDetailsStep.tsx:41 | removes exactly a whitespace suffix; the rest is empty or ends with a non-whitespace character |
| Text.TrimEmptyIff | src/framework/components/KYC/PersonalDetailsStep.tsx:41-46 | `s.trim()` is empty exactly when every character of `s` is whitespace |
| Utils.FormatPhoneNumberShape | src/framework/utils/index.ts:40-46 | the result starts with `+` followed only by digits; ten digits give `+27` and the last nine (length 12), any other count gives `+` and all the digits |
| Utils.DigitsOfFormatted | src/framework/utils/index.ts:40-46 | the digits of a formatted number are everything after its `+` |
| Utils.FormatPhoneNumberIdempotent | src/framework/utils/index.ts:40-46 | formatting a formatted number changes nothing |
| Utils.MaskIdNumberShape | src/framework/utils/index.ts:55-58 | inputs shorter than 8 are returned unchanged; longer ones become the first four characters, `****` and the last two (length 10) |
| Utils.MaskIdNumberHidesMiddle | src/framework/utils/index.ts:55-58 | two IDs of length at least 8 with the same first four and last two characters mask alike |
| Utils.MaskIdNumberIdempotent | src/framework/utils/index.ts:55-58 | masking a masked ID changes nothing |
| Utils.FormatValidPhone | src/framework/utils/index.ts:63-66 | a number with 10 or 11 digits formats to 12 characters and still passes `isValidPhone` |
| Utils.IsValidSouthAfricanIdIff | src/framework/utils/index.ts:68-71 | accepted exactly when the input has 13 characters, all digits |
| Utils.ShapeOfSplit | src/framework/utils/index.ts:73-76 | a match of `^[^\s@]+@[^\s@]+\.[^\s@]+$` at a split point has no whitespace, exactly one `@`, and a `.` after it that is neither the domain's first nor the string's last character |
| Utils.SplitOfShape | src/framework/utils/index.ts:73-76 | conversely, such a string matches the expression at that split point |
| Utils.IsValidEmailIff | src/framework/utils/index.ts:73-76 | `isValidEmail` holds iff: no whitespace, exactly one `@` after a non-empty local part, and a `.` inside the domain |
| Utils.BankAccountBoundary | src/framework/utils/index.ts:78-80 | lengths 9 and 17 are accepted, 8 and 18 refused |
| KycContext.MergeIsSpread | src/framework/context/KYCContext.tsx:38-40 | the merged record, read as an object, is the old object overridden by exactly the keys present in the patch |
| KycContext.SpreadAt | src/framework/context/KYCContext.tsx:38-40 | per key: a present key takes the patch's value, an absent key keeps the old one |
| KycContext.MergeIdempotent | src/framework/context/KYCContext.tsx:38-40 | applying the same patch twice equals applying it once |
| KycContext.MergeEmptyAndFull | src/framework/context/KYCContext.tsx:38-40 | an empty patch changes nothing; a spread of a whole record replaces the record |
| KycContext.NavigateAllInRange | src/framework/context/KYCContext.tsx:42-54 | from a cursor in [1, 4], no sequence of next, previous and set moves leaves [1, 4] |
| KycContext.NextPreviousInverse | src/framework/context/KYCContext.tsx:42-48 | below 4, previous undoes next; above 1, next undoes previous |
| KycContext.KycSession.constructor | src/framework/context/KYCContext.tsx:19-36 | the initial record (step 1, empty phone and ID number, not verified), cursor 1, not loading, no error |
| KycContext.KycSession.UpdateKycData | src/framework/context/KYCContext.tsx:38-40 | the record becomes the spread merge of the old record and the patch; nothing else changes |
| KycContext.KycSession.NextStep | src/framework/context/KYCContext.tsx:42-44 | the cursor rises by one below 4 and stays at 4; only the cursor may change |
| KycContext.KycSession.PreviousStep | src/framework/context/KYCContext.tsx:46-48 | the cursor falls by one above 1 and stays at 1; only the cursor may change |
| KycContext.KycSession.SetStep | src/framework/context/KYCContext.tsx:50-54 | the cursor becomes `n` exactly when 1 ≤ n ≤ 4 and is otherwise unchanged; only the cursor may change |
| KycContext.KycSession.SetError | src/framework/context/KYCContext.tsx:36 | the error cell takes the given value |
| KycContext.KycSession.SetLoading | src/framework/context/KYCContext.tsx:72 | the loading cell takes the given value |
| KycContext.KycSession.ResetKyc | src/framework/context/KYCContext.tsx:56-60 | initial record, cursor 1, no error; the loading flag is not in its frame |
| KycService.StepErrorsMeaning | src/framework/services/kycService.ts:182-215 | the error list is empty iff the step's check passes; it has at most two entries; step 2 with neither ID number nor ID data has exactly two; steps outside 1..4 have none |
| KycService.ValidateStep | src/framework/services/kycService.ts:182-215 | `valid` iff no errors. Step 1 fails iff the phone is empty or shorter than 10; step 2 counts one error per missing ID number or ID data; step 3 iff verified; step 4 iff ID data has non-empty first and last names (birth date not checked); any other step is valid |
| PhoneVerification.SaPhoneIsValidPhone | src/framework/components/KYC/PhoneVerificationStep.tsx:26 | a number matching `^(\+27\|0)[6-8]\d{8}$` passes `isValidPhone` and formats to `+27` and its last nine digits |
| PhoneVerification.SanitizeOtpShape | src/framework/components/KYC/PhoneVerificationStep.tsx:111-113 | the kept code is all digits, at most six long, the start of the typed digits, six long when six digits were typed, and sanitising it again changes nothing |
| PhoneVerification.PhoneVerificationStep.constructor | src/framework/components/KYC/PhoneVerificationStep.tsx:16-19 | the phone field starts from the record; phone form shown, empty code, no code error |
| PhoneVerification.PhoneVerificationStep.EnterPhone | src/framework/components/KYC/PhoneVerificationStep.tsx:83 | the phone field takes the typed value |
| PhoneVerification.PhoneVerificationStep.EnterOtp | src/framework/components/KYC/PhoneVerificationStep.tsx:111-113 | the code field takes the sanitised input |
| PhoneVerification.PhoneVerificationStep.ShowPhoneForm | src/framework/components/KYC/PhoneVerificationStep.tsx:126 | the code form is hidden |
| PhoneVerification.PhoneVerificationStep.HandleSendOtp | src/framework/components/KYC/PhoneVerificationStep.tsx:21-43 | a number outside the pattern sets the error with no call and no record change. Otherwise one call is made while loading and loading ends false. Success stores the phone and opens the code form; failure sets the service error or the fallback and keeps the record |
| PhoneVerification.PhoneVerificationStep.HandleVerifyOtp | src/framework/components/KYC/PhoneVerificationStep.tsx:45-65 | completes iff the code has six characters and the call succeeds. A wrong length sets the code error with no call. On success the phone is written; on failure the code error is set and the record is kept |
| IdCapture.FileGuardBoundary | src/framework/components/KYC/IDCaptureStep.tsx:37-41 | an image of exactly 5·1024·1024 bytes is accepted, one byte more is refused |
| IdCapture.OcrPatchKeepsOtherSteps | src/framework/components/KYC/IDCaptureStep.tsx:61-73 | a successful extraction writes the ID number, the ID data and the document URL, and leaves phone, biometric flag and step as they were |
| IdCapture.IdCaptureStep.constructor | src/framework/components/KYC/IDCaptureStep.tsx:21-23 | national ID selected, no preview, extracted data taken from the record |
| IdCapture.IdCaptureStep.SetIdType | src/framework/components/KYC/IDCaptureStep.tsx:106-126 | the selected ID type changes |
| IdCapture.IdCaptureStep.Upload | src/framework/components/KYC/IDCaptureStep.tsx:29-78 | a non-image or a file over 5 MB sets its error with no call and no change. A file the reader rejects leaves loading on, the error cleared, no call made and nothing else changed. Otherwise one OCR call is made while loading, and loading ends. Success merges the three ID keys, shows the data and disables further uploads; failure sets the error and keeps record and extracted data |
| IdCapture.IdCaptureStep.HandleFileSelect | src/framework/components/KYC/IDCaptureStep.tsx:25-79 | corrected (Finding 2): no file changes nothing at all; a rejected read leaves loading on with no error; a successful extraction stores the image just read as the document URL, shows the data, clears the error and disables uploads; any other outcome keeps the record and the extracted data and sets an error |
| IdCapture.IdCaptureStep.HandleFileSelectAsWritten | src/framework/components/KYC/IDCaptureStep.tsx:25-79 | as written: the same outcomes as the corrected handler, except that the stored document URL is the preview of the previous accepted file, or none |
| IdCapture.IdCaptureStep.HandleVerifyId | src/framework/components/KYC/IDCaptureStep.tsx:81-97 | without an extracted ID number the error is set and no call is made. Otherwise completes iff the authority answers verified; a refusal sets the error. Record and extracted data never change |
| IdCapture.FirstUploadStoresNoDocument | src/framework/components/KYC/IDCaptureStep.tsx:43-73 | on a freshly mounted step the first successful upload, as written, stores no document URL and disables the upload control |
| BiometricVerification.BiometricVerificationStep.constructor | src/framework/components/KYC/BiometricVerificationStep.tsx:12-15 | no selfie, camera off |
| BiometricVerification.BiometricVerificationStep.StartCamera | src/framework/components/KYC/BiometricVerificationStep.tsx:17-29 | corrected: a granted stream is attached with all tracks live and the camera shows; a denial sets the error and leaves the camera as it was |
| BiometricVerification.BiometricVerificationStep.StartCameraAsWritten | src/framework/components/KYC/BiometricVerificationStep.tsx:17-29 | as written: a camera that is off stays off, because the video element the stream needs is rendered only while the camera shows |
| BiometricVerification.BiometricVerificationStep.StopCamera | src/framework/components/KYC/BiometricVerificationStep.tsx:45-51 | with a stream attached every track is stopped and the camera hides; otherwise nothing changes |
| BiometricVerification.BiometricVerificationStep.CaptureSelfie | src/framework/components/KYC/BiometricVerificationStep.tsx:31-43 | with the camera showing and a drawing context, the frame is kept and every track stopped; otherwise nothing changes |
| BiometricVerification.BiometricVerificationStep.HandleVerifyBiometric | src/framework/components/KYC/BiometricVerificationStep.tsx:53-73 | without a selfie or a stored ID image the error is set and no call is made. Completes iff the match is verified, and then `biometricVerified` is set, a document URL is present, and the selfie and the error are kept as they were. Otherwise the selfie is dropped and the record is unchanged |
| BiometricVerification.BiometricVerificationStep.HandleRetry | src/framework/components/KYC/BiometricVerificationStep.tsx:75-78 | corrected (Finding 1): the selfie is dropped and the corrected start runs, so a granted retry shows the camera with every track live and keeps the error; a denial only sets the error, leaving camera, tracks and stream as they were |
| BiometricVerification.NoSelfieAsWritten | src/framework/components/KYC/BiometricVerificationStep.tsx:17-43 | as written, on a fresh step a granted camera never shows, so no selfie can be captured |
| BiometricVerification.SelfieReleasesCamera | src/framework/components/KYC/BiometricVerificationStep.tsx:31-51 | with the corrected start, a capture keeps the frame and releases every track |
| PersonalDetails.Set | src/framework/components/KYC/PersonalDetailsStep.tsx:54-56 | the named field takes the value and every other field keeps its own |
| PersonalDetails.InitialForm | src/framework/components/KYC/PersonalDetailsStep.tsx:15-23 | names and birth date come from the ID data when present; the contact fields start empty |
| PersonalDetails.PrefillProperties | src/framework/components/KYC/PersonalDetailsStep.tsx:26-36 | non-empty ID fields override the form's, empty ones keep it; contact fields are untouched; the effect is idempotent and does nothing on the mounted form |
| PersonalDetails.Message | src/framework/components/KYC/PersonalDetailsStep.tsx:41-48 | every field's error message is non-empty |
| PersonalDetails.ErrorsComplete | src/framework/components/KYC/PersonalDetailsStep.tsx:38-50 | once every field is checked, the accumulated record is the whole form's |
| PersonalDetails.FormErrorsEmptyIff | src/framework/components/KYC/PersonalDetailsStep.tsx:38-52 | the form's error record is empty iff the form is valid |
| PersonalDetails.FormErrorsUnique | src/framework/components/KYC/PersonalDetailsStep.tsx:38-50 | a form has exactly one error record |
| PersonalDetails.UpdatedRecordSatisfies | src/framework/components/KYC/PersonalDetailsStep.tsx:70-78 | the record saved from a valid form passes step 4's check, and every earlier step's check it passed still passes |
| PersonalDetails.UpdatedRecord | src/framework/components/KYC/PersonalDetailsStep.tsx:70-78 | the saved record keeps every key of the old one except that ID data takes the form's names and birth date, keeping the old ID number and type |
| PersonalDetails.UpdatedRecordIgnoresContactFields | src/framework/components/KYC/PersonalDetailsStep.tsx:70-78 | email, address, city and postal code never reach the saved record |
| PersonalDetails.Record | src/framework/components/KYC/PersonalDetailsStep.tsx:41-48 | one check line adds the field's message exactly when the field fails |
| PersonalDetails.RequireText | src/framework/components/KYC/PersonalDetailsStep.tsx:41-46 | a `!value.trim()` check line adds its entry exactly when the field is blank |
| PersonalDetails.CollectErrors | src/framework/components/KYC/PersonalDetailsStep.tsx:38-51 | the filled `errors` object has one entry, with its message, per invalid field, and is empty iff the form is valid |
| PersonalDetails.PersonalDetailsStep.constructor | src/framework/components/KYC/PersonalDetailsStep.tsx:15-24 | the form starts from the ID data; no error entries |
| PersonalDetails.PersonalDetailsStep.PrePopulate | src/framework/components/KYC/PersonalDetailsStep.tsx:26-36 | the form becomes the pre-filled form of the current ID data |
| PersonalDetails.PersonalDetailsStep.ValidateForm | src/framework/components/KYC/PersonalDetailsStep.tsx:38-52 | stores the form's error record and returns true iff the form is valid, iff the record is empty |
| PersonalDetails.PersonalDetailsStep.HandleChange | src/framework/components/KYC/PersonalDetailsStep.tsx:54-61 | only the named field changes; its error entry, if any, is blanked and no key is removed |
| PersonalDetails.PersonalDetailsStep.HandleSubmit | src/framework/components/KYC/PersonalDetailsStep.tsx:63-90 | an invalid form makes no call and keeps the record. A valid one makes one save call while loading and completes iff the save succeeds. Then the record is the updated record and passes step 4; a failure keeps the record and sets the message. The form data is never in the frame |
| PersonalDetails.SubmitLockedAsWritten | src/framework/components/KYC/PersonalDetailsStep.tsx:222 | as written, after a submission fails validation the button stays disabled whatever is typed |
| PersonalDetails.EditAll | src/framework/components/KYC/PersonalDetailsStep.tsx:54-61 | a run of edits keeps the error keys and blanks the entry of every edited field |
| PersonalDetails.SubmitUnlocksAfterEdits | src/framework/components/KYC/PersonalDetailsStep.tsx:222 | with the corrected condition, editing every field after a failed submission enables the button again |
| KycFlow.ExactlyOneStepRendered | src/pages/KYC.tsx:80-89 | each cursor value 1..4 renders exactly its own step, any other value none |
| KycFlow.InitialRecordOk | src/framework/context/KYCContext.tsx:19-24 | the initial record satisfies the page's record invariant at cursor 1 |
| KycFlow.KycFlow.constructor | src/pages/KYC.tsx:13-17 | entering the page mounts the selected step in its initial state, with the page invariant |
| KycFlow.KycFlow.Mount | src/pages/KYC.tsx:80-89 | a cursor change mounts a fresh instance of the newly selected step |
| KycFlow.KycFlow.StepComplete | src/pages/KYC.tsx:26-38 | at step 4 the page leaves for product selection with the record and the cursor stays; at steps 1-3 the cursor advances by one; the invariant, including "every step before the cursor passes", is kept |
| KycFlow.KycFlow.TypePhone | src/framework/components/KYC/PhoneVerificationStep.tsx:83 | typing the phone keeps the page invariant |
| KycFlow.KycFlow.SendOtp | src/framework/components/KYC/PhoneVerificationStep.tsx:21-43 | sending stays on step 1 and writes at most the phone; a valid number with a successful call opens the code form |
| KycFlow.KycFlow.TypeOtp | src/framework/components/KYC/PhoneVerificationStep.tsx:111-113 | the code field takes the sanitised input |
| KycFlow.KycFlow.OtpBack | src/framework/components/KYC/PhoneVerificationStep.tsx:124-131 | the code form's Back returns to the phone form |
| KycFlow.KycFlow.VerifyOtp | src/framework/components/KYC/PhoneVerificationStep.tsx:45-65 | the cursor leaves step 1 iff the check succeeds, with the phone stored and step 1 passing; otherwise cursor and record are unchanged |
| KycFlow.KycFlow.ChooseIdType | src/framework/components/KYC/IDCaptureStep.tsx:106-126 | only while uploading is enabled; the type changes |
| KycFlow.KycFlow.ChooseFile | src/framework/components/KYC/IDCaptureStep.tsx:131-146 | corrected (Finding 2), file read succeeding: only while uploading is enabled; an upload never changes the phone or sets the biometric flag; a successful one merges the OCR keys with the image just read and disables further uploads, and any other outcome keeps the record with uploads still enabled |
| KycFlow.KycFlow.VerifyId | src/framework/components/KYC/IDCaptureStep.tsx:81-97 | the cursor leaves step 2 iff the authority confirms the extracted number, and then step 2 passes; the record never changes here |
| KycFlow.KycFlow.StartCamera | src/framework/components/KYC/BiometricVerificationStep.tsx:88-97 | corrected (Finding 1): the Start Camera button turns the camera on iff access is granted |
| KycFlow.KycFlow.CancelCamera | src/framework/components/KYC/BiometricVerificationStep.tsx:112-118 | Cancel turns the camera off |
| KycFlow.KycFlow.Capture | src/framework/components/KYC/BiometricVerificationStep.tsx:119-125 | with a drawing context the selfie is kept and the camera is off |
| KycFlow.KycFlow.Retake | src/framework/components/KYC/BiometricVerificationStep.tsx:137-144 | corrected (Finding 1): the selfie is dropped; a granted retry turns the camera on and keeps the error, a denial leaves the camera as it was |
| KycFlow.KycFlow.VerifyBiometric | src/framework/components/KYC/BiometricVerificationStep.tsx:53-73 | the cursor leaves step 3 only on a verified match, which sets `biometricVerified` with a document URL present and keeps any earlier error message into step 4; otherwise cursor and record are unchanged |
| KycFlow.KycFlow.EditDetail | src/framework/components/KYC/PersonalDetailsStep.tsx:54-61 | one form field changes |
| KycFlow.KycFlow.Submit | src/pages/KYC.tsx:26-34 | corrected hand-off and button condition (Findings 3 and 4): completes iff the form is valid and the save succeeds. The user is then sent on with the saved record, which passes all four checks; otherwise nothing is sent and the record is kept |
| KycFlow.KycFlow.Back | src/pages/KYC.tsx:94-101 | shown only above step 1; moves the cursor back by one |
| KycFlow.KycFlow.Cancel | src/pages/KYC.tsx:40-45 | a confirmed cancel resets the record, cursor and error and leaves; a declined one changes nothing |
| KycFlow.SamplePhoneAccepted | src/framework/components/KYC/PhoneVerificationStep.tsx:26 | `+27601234567` matches the phone pattern |
| KycFlow.SampleOtpKept | src/framework/components/KYC/PhoneVerificationStep.tsx:112 | a typed six-digit code is kept as typed |
| KycFlow.PhoneScenario | src/pages/KYC.tsx:26-38 | from a fresh session, a valid number, a sent code and a successful check reach step 2 with the number stored |
| KycFlow.RejectedIdScenario | src/framework/components/KYC/IDCaptureStep.tsx:88-96 | a rejected ID keeps the page on step 2 with the number still in the record and on screen |
| KycFlow.StaleHandOffAsWritten | src/pages/KYC.tsx:26-34 | as written, the record handed to product selection can fail step 4's check while the saved one passes |
| KycFlow.TypeDetails | src/framework/components/KYC/PersonalDetailsStep.tsx:54-61 | typing five fields sets exactly those fields |
| KycFlow.SampleFormValid | src/framework/components/KYC/PersonalDetailsStep.tsx:38-52 | a form whose text fields start with a non-space, with a birth date, an `@` and a four-digit postal code, is valid |
| AppTypes.InitialAuth | src/framework/context/AppContext.tsx:15-21 | authenticated exactly when the stored token is a non-empty string; the token is the stored one; no user, not loading, no error |
| AppTypes.InitialState | src/framework/context/AppContext.tsx:12-60 | the welcome stage with no previous stage, the start-up auth slice, no policies |
| AppReducer.Without | src/framework/context/AppContext.tsx:158 | the filter keeps exactly the other ids and is never longer |
| AppReducer.WithoutAbsent | src/framework/context/AppContext.tsx:158 | filtering out an absent id changes nothing |
| AppReducer.WithoutAppend | src/framework/context/AppContext.tsx:158 | the filter distributes over concatenation |
| AppReducer.Toggle | src/framework/context/AppContext.tsx:157-159 | the toggled id's membership flips and every other id's stays |
| AppReducer.ToggleTwice | src/framework/context/AppContext.tsx:152-161 | toggling an absent id twice restores the list |
| AppReducer.FilterIndexIsSlice | src/framework/context/AppContext.tsx:177 | the index filter drops exactly the element at the index, or nothing when it is out of range |
| AppReducer.DropIndexSpec | src/framework/context/AppContext.tsx:172-179 | removing index k of a list drops exactly that element (length minus one), or nothing when k is not an index |
| AppReducer.AgreesEverywhere | src/framework/context/AppContext.tsx:12-60 | two states that agree on every slice are equal, so the slice frames cover the whole state |
| AppReducer.ReduceAllTwo | src/framework/context/AppContext.tsx:241 | two dispatches apply the reducer twice in order |
| AppReducer.ReduceWritesOnly | src/framework/context/AppContext.tsx:88-226 | every action leaves each slice it does not own unchanged |
| AppReducer.ReduceAllAppend | src/framework/context/AppContext.tsx:241 | replaying a concatenation of dispatch sequences is replaying one after the other |
| AppReducer.SetStepRecordsPrevious | src/framework/context/AppContext.tsx:90-95 | `SET_STEP` records the stage it leaves, enters the target and leaves every other slice |
| AppReducer.GoBackIdempotent | src/framework/context/AppContext.tsx:97-101 | `GO_BACK` goes to the recorded stage if any, keeps the record, and a second one changes nothing |
| AppReducer.GoBackUndoesSetStep | src/framework/context/AppContext.tsx:90-101 | `SET_STEP` then `GO_BACK` returns to the stage left |
| AppReducer.LogoutResetsAuth | src/framework/context/AppContext.tsx:127-132 | `LOGOUT` restores the start-up auth slice signed out, enters welcome, and keeps the previous stage and every other slice |
| AppReducer.AuthOutcomes | src/framework/context/AppContext.tsx:109-125 | success signs in with the given user and token and stops loading; an error stops loading and keeps who is signed in |
| AppReducer.ToggleRiderFlips | src/framework/context/AppContext.tsx:152-161 | `TOGGLE_RIDER` flips its id's membership and no other |
| AppReducer.ToggleRiderTwice | src/framework/context/AppContext.tsx:152-161 | two `TOGGLE_RIDER`s of an absent id restore the state |
| AppReducer.DependentOperations | src/framework/context/AppContext.tsx:163-179 | `ADD_DEPENDENT` appends; `REMOVE_DEPENDENT k` drops exactly index k or nothing out of range |
| AppReducer.RemoveUndoesAdd | src/framework/context/AppContext.tsx:163-179 | adding a dependent and removing the last index restores the state |
| AppReducer.UpdateOnboardingWritesKeys | src/framework/context/AppContext.tsx:140-144 | present keys are written, absent keys kept |
| AppReducer.MergeOnboardingCombine | src/framework/context/AppContext.tsx:140-144 | two merges in turn are one merge in which the later keys win |
| AppReducer.UpdateOnboardingLastWriteWins | src/framework/context/AppContext.tsx:140-144 | two `UPDATE_ONBOARDING`s equal one with the later keys winning; repeating one changes nothing |
| AppReducer.UpdatePaymentIdempotent | src/framework/context/AppContext.tsx:205-209 | repeating an `UPDATE_PAYMENT` changes nothing; a present key is written, an absent one kept |
| AppReducer.UnrecognisedIsNoOp | src/framework/context/AppContext.tsx:223-224 | an unknown action returns the state unchanged |
| AppReducer.InitialAuthConsistent | src/framework/context/AppContext.tsx:15-21 | at start-up, being authenticated implies holding a token |
| AppReducer.ReduceAllKeepsAuthConsistent | src/framework/context/AppContext.tsx:88-226 | every dispatch sequence keeps "authenticated implies a token is held" |
| AppProvider.FailureMessage | src/framework/context/AppContext.tsx:262-270 | a resolved failure yields the service's non-empty error or the fallback; a thrown error yields its message or "An error occurred" |
| AppProvider.ReferralValid | src/framework/context/AppContext.tsx:364-371 | true exactly when the lookup resolved, succeeded, carried data and that data says valid |
| AppProvider.AppContextProvider.constructor | src/framework/context/AppContext.tsx:240-241 | the state is the initial state for the stored token, with an empty history |
| AppProvider.AppContextProvider.Dispatch | src/framework/context/AppContext.tsx:241-250 | the state becomes the reducer applied to it, the action is appended to the history, and the history still replays to the state |
| AppProvider.AppContextProvider.Authenticate | src/framework/context/AppContext.tsx:253-291 | the shared body of signup and login: success with data stores the token, signs in and enters the target via `SET_STEP`; anything else stops loading with the error and keeps stage and token; only auth and navigation change |
| AppProvider.AppContextProvider.Signup | src/framework/context/AppContext.tsx:253-271 | success signs in, stores the token and goes to products with the previous stage recorded; failure sets the error with fallback "Signup failed", with neither the stage nor the previous stage changed |
| AppProvider.AppContextProvider.Login | src/framework/context/AppContext.tsx:273-291 | success signs in, stores the token and goes to the dashboard; failure sets the error with fallback "Login failed", with neither the stage nor the previous stage changed |
| AppProvider.AppContextProvider.SignOut | src/framework/context/AppContext.tsx:293-300 | whatever the service does, the token is removed and `LOGOUT` is dispatched; a thrown call still propagates |
| AppProvider.AppContextProvider.VerifyOtp | src/framework/context/AppContext.tsx:302-327 | success clears the code and the sent flag, stops loading and moves to personal information; failure stops loading with the error and keeps the sub-step; only onboarding changes |
| AppProvider.AppContextProvider.RequestOtp | src/framework/context/AppContext.tsx:329-353 | success marks the code sent and stores the phone; failure stops loading with the error; only onboarding changes |
| AppProvider.AppContextProvider.ValidateReferralCode | src/framework/context/AppContext.tsx:364-371 | the result is the referral answer; the state is not in the frame |
| AppProvider.AppContextProvider.CalculatePrice | src/framework/context/AppContext.tsx:393-429 | without a selected product nothing happens; otherwise one request with the product, riders and dependent count, a stored price on success or an onboarding error on failure, and onboarding loading ends false |
| AppProvider.AppContextProvider.PriceDispatches | src/framework/context/AppContext.tsx:396-428 | the dispatches after the guard: price and loading on success, loading and error on failure; only onboarding and product selection change |
| AppProvider.AppContextProvider.SubmitUnderwriting | src/framework/context/AppContext.tsx:436-462 | always records approved with the instant-approval message and a policy id from the clock, then goes to payment; onboarding loading is left true |
| AppProvider.AppContextProvider.SetupPayment | src/framework/context/AppContext.tsx:465-491 | stores the bank details as verified with loading false, then goes to the dashboard; only payment and navigation change |
| AppProvider.AppContextProvider.FetchPolicies | src/framework/context/AppContext.tsx:494-503 | a successful response with data replaces the policy list; anything else changes nothing |
| AppProvider.LoginScenario | src/framework/context/AppContext.tsx:273-291 | a failed then a successful login from welcome reach the dashboard signed in with the token stored, and `GO_BACK` returns to welcome |

## Left out

- HTTP plumbing. The `fetch` bodies of the KYC service (`src/framework/services/kycService.ts:25-177`) and the authentication, product and policy services are not modelled. Each call's outcome is a method parameter, and the request is recorded in a ghost log.
- Browser storage. Only the `token` key is modelled, as the `storedToken` field and the `startupToken` constant that the initial auth slice reads. Everything else in `StorageUtil` is not.
- Camera and file reader. These are a permission answer, a track count, a MIME type, a size and opaque data-URL strings. Canvas drawing is a `hasContext` flag. The ID step starts two file reads of the same file, one for the preview and one for the OCR call, and one `readOk` outcome stands for both, so a failed preview read beside a successful OCR read, or the reverse, is not modelled.
- The clock. `Date.now()` in the underwriting policy id is a `timestamp` string parameter.
- Floating point. `totalPrice`, the match score and the price are stored as `real`, and no arithmetic is performed on them. `formatCurrency` and all of `DateUtil` are not modelled.
- Asynchronous interleaving. Each handler and action creator runs as one atomic method. React's batching, state updates that land between awaits, and unmount are not modelled. Two stale-closure effects are modelled explicitly: the ID preview (Finding 2) and the page's hand-off (Finding 4).
- `submitUnderwriting`'s `catch` branch and `setupPayment`'s `catch` branch. Their `try` bodies only dispatch, so they cannot throw, and these branches are not modelled.
- `dispatch`-only action creators (`setStep`, `goBack`, `setOnboardingStep`, `updateOnboarding`, `selectProduct`, `toggleRider`, `addDependent`, `removeDependent`, `updateUnderwritingAnswers`, `setActivePolicy`). These are `AppContextProvider.Dispatch` with the matching action. They have no method of their own.
- Logging. `console.error` calls, such as the one in `fetchPolicies`'s `catch` (`src/framework/context/AppContext.tsx:500-502`), are not modelled.
- Rendering beyond the conditions modelled. Progress bar widths, labels and CSS are not modelled.
- Pages outside the KYC flow, routing, `useApp`/`useKYC` (which throw outside a provider), and the constant tables are not part of this model.
- String lengths. JavaScript counts string lengths in UTF-16 code units, and this model counts `char`s.
- Non-integer step numbers. `setStep` (`src/framework/context/KYCContext.tsx:50-54`) accepts any number in [1, 4], for example 2.5, after which no step renders. The cursor here is an `int`. No caller in the source passes a non-integer.
- KycFlow.KycFlow.StartCamera: proved for the corrected start of Finding 1. As written, a granted start leaves a fresh step's camera off (`BiometricVerification.BiometricVerificationStep.StartCameraAsWritten`).
- HandleRetry (`BiometricVerification.BiometricVerificationStep.HandleRetry`, and `KycFlow.KycFlow.Retake` over it): restarts the camera through the corrected start of Finding 1. As written, a granted retry leaves the camera off.
- KycFlow.KycFlow.ChooseFile: passes a file read that succeeds. A rejected read leaves loading on for good, so the page would stay locked; `IdCapture.IdCaptureStep.Upload` and `IdCapture.IdCaptureStep.HandleFileSelect` model that path.
- KycFlow.KycFlow.Submit: requires the corrected button condition of Finding 3, so it allows a click after edits that the source's disabled button refuses.
- AppReducer.UpdateOnboardingWritesKeys: states per-key behaviour only for the five keys that the action creators write. `AppReducer.MergeOnboardingCombine` and `AppReducer.UpdateOnboardingLastWriteWins` cover all eleven keys.
- PhoneVerification.PhoneVerificationStep.HandleVerifyOtp and AppProvider.AppContextProvider.VerifyOtp: the response's `verified` and `token` fields are not read, because the source does not read them. Success alone completes the step.
- Underwriting answers are stored as a `map<string, string>`. The source casts `SET_UNDERWRITING_SUCCESS`'s status without checking it, and the model keeps it as any string.

## Findings

The findings are numbered 1 to 4 in the order of the table.

| source | as written | input that shows it | evidently intended | confidence | as-written member | corrected member |
|---|---|---|---|---|---|---|
| src/framework/components/KYC/BiometricVerificationStep.tsx:17-29 | `startCamera` attaches the stream only `if (videoRef.current)`, but the `<video>` is rendered only while `cameraActive` (lines 99-103), which only this branch sets | a fresh step: press Start Camera with permission granted | the stream is attached and the camera shows | not executed | BiometricVerification.NoSelfieAsWritten | BiometricVerification.SelfieReleasesCamera |
| src/framework/components/KYC/IDCaptureStep.tsx:72 | `documentUrl: preview \|\| undefined` reads the `preview` of the render the handler closed over, not the image just read | the first accepted upload on a fresh step | the just-read image is stored as the document URL | not executed | IdCapture.FirstUploadStoresNoDocument | IdCapture.IdCaptureStep.HandleFileSelect |
| src/framework/components/KYC/PersonalDetailsStep.tsx:222 | the submit button is disabled while any key exists in `formErrors`, and `handleChange` (54-61) blanks entries without removing them | submit an empty form, then fill every field validly | the button re-enables once no error message shows | not executed | PersonalDetails.SubmitLockedAsWritten | PersonalDetails.SubmitUnlocksAfterEdits |
| src/pages/KYC.tsx:26-34 | `handleStepComplete` passes the `kycData` of the last render, before `updateKYCData(updatedKYC)` (PersonalDetailsStep.tsx:82-84) is applied | ID data read without a first name; the user types it on the details form and submits | product selection receives the saved record | not executed | KycFlow.StaleHandOffAsWritten | KycFlow.KycFlow.Submit |

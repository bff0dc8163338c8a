/** The phone verification step: check the number against the South African
    mobile pattern, ask the service for an OTP, then check the six-digit code.
    The service's two calls arrive as response parameters. */
module PhoneVerification {
  import opened Types
  import opened Text
  import Utils
  import opened KycContext

  const InvalidPhoneMessage := "Please enter a valid South African phone number"
  const SendOtpFallback := "Failed to send OTP"
  const OtpLengthMessage := "OTP must be 6 digits"
  const VerifyOtpFallback := "Invalid OTP"

  /** `/^(\+27|0)[6-8]\d{8}$/`. */
  predicate SaPhonePattern(s: string)
  {
    (|s| == 12 && s[..3] == "+27" && '6' <= s[3] <= '8' && AllDigits(s[4..]))
    || (|s| == 10 && s[0] == '0' && '6' <= s[1] <= '8' && AllDigits(s[2..]))
  }

  /** An accepted number is one `isValidPhone` also accepts, and it formats to
      `+27` followed by its last nine digits. */
  lemma SaPhoneIsValidPhone(s: string)
    requires SaPhonePattern(s)
    ensures |s| >= 10
    ensures Utils.IsValidPhone(s)
    ensures Utils.FormatPhoneNumber(s) == "+27" + s[|s| - 9..]
  {
    if |s| == 12 {
      assert s == s[..3] + s[3..];
      DigitsConcat(s[..3], s[3..]);
      assert s[..3] == "+" + "27";
      DigitsConcat("+", "27");
      assert Digits("+") == [];
      assert Digits("27") == "27";
      assert AllDigits(s[3..]);
      assert Digits(s) == "27" + s[3..];
    } else {
      assert AllDigits(s);
    }
  }

  /** The OTP input handler: `value.replace(/\D/g, "").slice(0, 6)`. */
  function SanitizeOtp(raw: string): string
  {
    var d := Digits(raw);
    if |d| <= 6 then d else d[..6]
  }

  /** The kept code is made of digits, is at most six long, is the start of the
      typed digits, and is six long whenever six digits were typed; sanitising
      twice is sanitising once. */
  lemma SanitizeOtpShape(raw: string)
    ensures var r := SanitizeOtp(raw);
      AllDigits(r) && |r| <= 6 && r == Digits(raw)[..|r|]
      && (|Digits(raw)| >= 6 ==> |r| == 6)
      && SanitizeOtp(r) == r
  {
  }

  /** The component's local state over the shared session `ctx`. The ghost
      `calls` records every service request and the loading flag during it. */
  class PhoneVerificationStep {
    const ctx: KycSession
    var phone: string
    var showOtp: bool
    var otp: string
    var otpError: Option<string>
    ghost var calls: seq<ServiceCall>

    /** Every OTP form shown was requested for a number that passed the pattern. */
    ghost predicate Inv()
      reads this
    {
      showOtp ==> SaPhonePattern(phone)
    }

    /** Mounting: the phone field starts from the record. */
    constructor (ctx: KycSession)
      ensures this.ctx == ctx && Inv()
      ensures phone == ctx.kycData.phone && !showOtp && otp == "" && otpError == None && calls == []
    {
      this.ctx := ctx;
      phone := ctx.kycData.phone;
      showOtp := false;
      otp := "";
      otpError := None;
      calls := [];
    }

    /** Typing in the phone field. */
    method EnterPhone(value: string)
      modifies this`phone
      ensures phone == value
    {
      phone := value;
    }

    /** Typing in the OTP field keeps at most six digits. */
    method EnterOtp(raw: string)
      modifies this`otp
      ensures otp == SanitizeOtp(raw)
    {
      otp := SanitizeOtp(raw);
    }

    /** The OTP form's Back button. */
    method ShowPhoneForm()
      modifies this`showOtp
      ensures !showOtp
    {
      showOtp := false;
    }

    /** `handleSendOTP`. A number outside the pattern is refused without a call;
        otherwise the record takes the number and the OTP form opens exactly when
        the call succeeds. */
    method HandleSendOtp(response: ApiResponse<bool>)
      modifies this`showOtp, this`calls, ctx`kycData, ctx`error, ctx`isLoading
      ensures Inv() <== old(Inv())
      ensures !SaPhonePattern(phone) ==>
        ctx.error == Some(InvalidPhoneMessage) && calls == old(calls)
        && ctx.kycData == old(ctx.kycData) && showOtp == old(showOtp) && ctx.isLoading == old(ctx.isLoading)
      ensures SaPhonePattern(phone) ==>
        calls == old(calls) + [ServiceCall(SendOtp(phone), true)] && !ctx.isLoading
      ensures SaPhonePattern(phone) && response.success ==>
        ctx.kycData == old(ctx.kycData).(phone := phone) && showOtp && ctx.error == None
      ensures SaPhonePattern(phone) && !response.success ==>
        ctx.kycData == old(ctx.kycData) && showOtp == old(showOtp)
        && ctx.error == Some(ErrorOr(response.error, SendOtpFallback))
    {
      ctx.SetError(None);
      if !SaPhonePattern(phone) {
        ctx.SetError(Some(InvalidPhoneMessage));
        return;
      }
      ctx.SetLoading(true);
      calls := calls + [ServiceCall(SendOtp(phone), ctx.isLoading)];
      if response.success {
        ctx.UpdateKycData(EmptyPatch.(phone := Some(phone)));
        showOtp := true;
      } else {
        ctx.SetError(Some(ErrorOr(response.error, SendOtpFallback)));
      }
      ctx.SetLoading(false);
    }

    /** `handleVerifyOTP`. A code that is not six long is refused without a call;
        otherwise the step completes exactly when the call succeeds (the
        response's `verified` field is not consulted), and only then is the
        record written. The shared `error` is left alone. */
    method HandleVerifyOtp(response: ApiResponse<bool>) returns (completed: bool)
      modifies this`otpError, this`calls, ctx`kycData, ctx`isLoading
      ensures completed <==> |otp| == 6 && response.success
      ensures |otp| != 6 ==>
        otpError == Some(OtpLengthMessage) && calls == old(calls)
        && ctx.kycData == old(ctx.kycData) && ctx.isLoading == old(ctx.isLoading)
      ensures |otp| == 6 ==>
        calls == old(calls) + [ServiceCall(CheckOtp(phone, otp), true)] && !ctx.isLoading
      ensures completed ==> ctx.kycData == old(ctx.kycData).(phone := phone) && otpError == None
      ensures |otp| == 6 && !completed ==>
        ctx.kycData == old(ctx.kycData) && otpError == Some(ErrorOr(response.error, VerifyOtpFallback))
    {
      otpError := None;
      if |otp| != 6 {
        otpError := Some(OtpLengthMessage);
        return false;
      }
      ctx.SetLoading(true);
      calls := calls + [ServiceCall(CheckOtp(phone, otp), ctx.isLoading)];
      if response.success {
        ctx.UpdateKycData(EmptyPatch.(phone := Some(phone)));
        completed := true;
      } else {
        otpError := Some(ErrorOr(response.error, VerifyOtpFallback));
        completed := false;
      }
      ctx.SetLoading(false);
    }
  }
}

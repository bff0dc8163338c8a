/** The biometric step: start the camera, capture a selfie (which stops the
    camera), and have the matching service compare it with the stored ID image.
    The camera is a permission answer and a stream of tracks, each with a live
    flag; the captured image is an opaque data URL. */
module BiometricVerification {
  import opened Types
  import opened KycContext

  const CameraDeniedMessage := "Camera access denied. Please allow camera permissions."
  const CaptureFirstMessage := "Please capture a selfie"
  const MatchFailedMessage := "Biometric verification failed. Please ensure your face is clearly visible and matches your ID."

  /** What the matching service answers. */
  datatype BiometricMatch = BiometricMatch(verified: bool, score: real)

  class BiometricVerificationStep {
    const ctx: KycSession
    var selfieCapture: Option<string>
    var cameraActive: bool
    /** The live flag of each track of the stream held by the video element. */
    var tracks: array<bool>
    /** Whether the video element's `srcObject` holds that stream. */
    var streamAttached: bool
    ghost var calls: seq<ServiceCall>

    /** The camera shows exactly while a stream is attached. */
    ghost predicate Inv()
      reads this
    {
      cameraActive == streamAttached
    }

    constructor (ctx: KycSession)
      ensures this.ctx == ctx && Inv() && fresh(tracks)
      ensures selfieCapture == None && !cameraActive && calls == []
    {
      this.ctx := ctx;
      selfieCapture := None;
      cameraActive := false;
      tracks := new bool[0];
      streamAttached := false;
      calls := [];
    }

    /** `startCamera`, with the video element present: a granted stream is
        attached, all its tracks live, and the camera shows; a denial only sets
        the error. */
    method StartCamera(granted: bool, trackCount: nat)
      modifies this`tracks, this`cameraActive, this`streamAttached, ctx`error
      ensures Inv()
      ensures granted ==>
        fresh(tracks) && tracks.Length == trackCount && (forall k :: 0 <= k < trackCount ==> tracks[k])
        && cameraActive && ctx.error == old(ctx.error)
      ensures !granted ==>
        ctx.error == Some(CameraDeniedMessage) && cameraActive == old(cameraActive) && tracks == old(tracks)
        && streamAttached == old(streamAttached)
      ensures !granted ==> Inv() == old(Inv())
      requires Inv()
    {
      if granted {
        tracks := new bool[trackCount](_ => true);
        streamAttached := true;
        cameraActive := true;
      } else {
        ctx.SetError(Some(CameraDeniedMessage));
      }
    }

    /** `startCamera` as the source writes it: the stream is attached only
        `if (videoRef.current)`, but the video element is rendered only while the
        camera already shows, so a camera that is off stays off (and a granted
        stream is left running). */
    method StartCameraAsWritten(granted: bool, trackCount: nat)
      modifies this`tracks, this`cameraActive, this`streamAttached, ctx`error
      requires Inv()
      ensures Inv()
      ensures !old(cameraActive) ==> !cameraActive && tracks == old(tracks)
      ensures !granted ==> ctx.error == Some(CameraDeniedMessage)
    {
      if granted {
        var acquired := new bool[trackCount](_ => true);
        var videoMounted := cameraActive;
        if videoMounted {
          tracks := acquired;
          streamAttached := true;
          cameraActive := true;
        }
      } else {
        ctx.SetError(Some(CameraDeniedMessage));
      }
    }

    /** `stopCamera`: when a stream is attached, every track is stopped and the
        camera is hidden; otherwise nothing changes. */
    method StopCamera()
      modifies this`cameraActive, this`streamAttached, tracks
      ensures old(cameraActive && streamAttached) ==>
        !cameraActive && !streamAttached && forall k :: 0 <= k < tracks.Length ==> !tracks[k]
      ensures !old(cameraActive && streamAttached) ==>
        cameraActive == old(cameraActive) && streamAttached == old(streamAttached) && tracks[..] == old(tracks[..])
    {
      if cameraActive && streamAttached {
        var i := 0;
        while i < tracks.Length
          invariant 0 <= i <= tracks.Length
          invariant forall k :: 0 <= k < i ==> !tracks[k]
        {
          tracks[i] := false;
          i := i + 1;
        }
        cameraActive := false;
        streamAttached := false;
      }
    }

    /** `captureSelfie`: with the camera showing and a drawing context, the frame
        is kept and the camera is stopped. */
    method CaptureSelfie(image: string, hasContext: bool)
      modifies this`selfieCapture, this`cameraActive, this`streamAttached, tracks
      requires Inv()
      ensures Inv()
      ensures old(cameraActive) && hasContext ==>
        selfieCapture == Some(image) && !cameraActive && forall k :: 0 <= k < tracks.Length ==> !tracks[k]
      ensures !(old(cameraActive) && hasContext) ==>
        selfieCapture == old(selfieCapture) && cameraActive == old(cameraActive) && tracks[..] == old(tracks[..])
    {
      if cameraActive && hasContext {
        selfieCapture := Some(image);
        StopCamera();
      }
    }

    /** `handleVerifyBiometric`. Without a selfie and a stored ID image there is
        no call. A verified match sets `biometricVerified` and completes, keeping
        the selfie and any earlier error message; any other answer drops the
        selfie and leaves the record alone. */
    method HandleVerifyBiometric(response: ApiResponse<BiometricMatch>) returns (completed: bool)
      modifies this`selfieCapture, this`calls, ctx`kycData, ctx`error, ctx`isLoading
      ensures var ready := Truthy(old(selfieCapture)) && Truthy(ctx.kycData.documentUrl);
        && (!ready ==> !completed && ctx.error == Some(CaptureFirstMessage) && calls == old(calls)
                       && selfieCapture == old(selfieCapture) && ctx.isLoading == old(ctx.isLoading))
        && (ready ==>
              !ctx.isLoading
              && calls == old(calls) + [ServiceCall(VerifyBiometric(old(selfieCapture).value, ctx.kycData.documentUrl.value), true)])
        && (ready ==> (completed <==> response.success && response.data.Some? && response.data.value.verified))
        && (ready && !completed ==> selfieCapture == None && ctx.error == Some(MatchFailedMessage))
      ensures completed ==> ctx.kycData == old(ctx.kycData).(biometricVerified := true) && Truthy(ctx.kycData.documentUrl)
      ensures completed ==> ctx.error == old(ctx.error) && selfieCapture == old(selfieCapture)
      ensures !completed ==> ctx.kycData == old(ctx.kycData)
    {
      if !Truthy(selfieCapture) || !Truthy(ctx.kycData.documentUrl) {
        ctx.SetError(Some(CaptureFirstMessage));
        return false;
      }
      ctx.SetLoading(true);
      calls := calls + [ServiceCall(VerifyBiometric(selfieCapture.value, ctx.kycData.documentUrl.value), ctx.isLoading)];
      if response.success && response.data.Some? && response.data.value.verified {
        ctx.UpdateKycData(EmptyPatch.(biometricVerified := Some(true)));
        completed := true;
      } else {
        selfieCapture := None;
        ctx.SetError(Some(MatchFailedMessage));
        completed := false;
      }
      ctx.SetLoading(false);
    }

    /** `handleRetry`: drop the selfie and start the camera again. */
    method HandleRetry(granted: bool, trackCount: nat)
      modifies this`selfieCapture, this`tracks, this`cameraActive, this`streamAttached, ctx`error
      requires Inv()
      ensures Inv()
      ensures selfieCapture == None
      ensures granted ==>
        cameraActive && fresh(tracks) && tracks.Length == trackCount && (forall k :: 0 <= k < trackCount ==> tracks[k])
        && ctx.error == old(ctx.error)
      ensures !granted ==>
        ctx.error == Some(CameraDeniedMessage) && cameraActive == old(cameraActive) && tracks == old(tracks)
        && streamAttached == old(streamAttached)
    {
      selfieCapture := None;
      StartCamera(granted, trackCount);
    }
  }

  /** As written, a granted camera never shows on a freshly mounted step, so no
      selfie can be captured. */
  method NoSelfieAsWritten(image: string, trackCount: nat) returns (active: bool, selfie: Option<string>)
    ensures !active && selfie == None
  {
    var session := new KycSession();
    var step := new BiometricVerificationStep(session);
    step.StartCameraAsWritten(true, trackCount);
    step.CaptureSelfie(image, true);
    active, selfie := step.cameraActive, step.selfieCapture;
  }

  /** With the camera attached, a capture keeps the frame and releases every track. */
  method SelfieReleasesCamera(image: string, trackCount: nat) returns (active: bool, selfie: Option<string>, live: seq<bool>)
    ensures !active && selfie == Some(image)
    ensures |live| == trackCount && forall k :: 0 <= k < |live| ==> !live[k]
  {
    var session := new KycSession();
    var step := new BiometricVerificationStep(session);
    step.StartCamera(true, trackCount);
    step.CaptureSelfie(image, true);
    active, selfie, live := step.cameraActive, step.selfieCapture, step.tracks[..];
  }
}

/** The medium cycle: which image source each of the nine camera and attention
    widgets shows for one tick. Frame encoding (downscaling and PNG/base64
    encoding) is a parameter, `processFrame(frame, scale)`. */
module MediumCycle {
  import opened Wrappers
  import opened Assets

  /** Downscale factor for the two camera frames; attention frames use 1. */
  const CAM_SCALE := 4
  /** Placeholder shown for the wide audio attention map when it is absent. */
  const PRIW_PLACEHOLDER := ASSET_PATH + "test_priw.png"
  /** Test pattern shown for the cameras when there is no left camera frame. */
  const CAM_PLACEHOLDER := ASSET_PATH + "test_cam_sml.png"

  /** The perception frames: cameras, their attention maps and the wide audio map. */
  datatype Perception<F> = Perception(
    caml: Option<F>, camr: Option<F>, pril: Option<F>, prir: Option<F>, priw: Option<F>)

  /** The nine widget sources, in the callback's output order; an overlay
      source of `None` shows no image. */
  datatype MediumOutputs = MediumOutputs(
    audioPriWide: string,
    cameraImgLeft: string, cameraImgRight: string,
    cameraPriLeft: Option<string>, cameraPriRight: Option<string>,
    cameraImgLeftLarge: string, cameraImgRightLarge: string,
    cameraPriLeftLarge: Option<string>, cameraPriRightLarge: Option<string>)

  /** The exceptions a medium tick can raise. */
  datatype MediumError =
    | PriwUnassigned        // no left camera frame: the wide source is read before it is assigned
    | RightCameraMissing    // a missing right camera frame is handed to the encoder
    | RightOverlayMissing   // a missing right attention map is handed to the encoder

  /** One medium tick. */
  function CallbackMedium<F>(p: Perception<F>, toggle: bool, toggleLarge: bool,
                             processFrame: (F, nat) -> string): (r: Result<MediumOutputs, MediumError>)
    ensures r.Ok? <==>
      p.caml.Some? && p.camr.Some? && (p.pril.Some? && (toggle || toggleLarge) ==> p.prir.Some?)
    ensures p.caml.None? ==> r == Err(PriwUnassigned)
    ensures r.Ok? ==>
      var o := r.value;
      o.cameraImgLeft == processFrame(p.caml.value, CAM_SCALE) &&
      o.cameraImgRight == processFrame(p.camr.value, CAM_SCALE) &&
      (o.cameraPriLeft.Some? <==> p.pril.Some? && (toggle || toggleLarge)) &&
      (o.cameraPriRight.Some? <==> p.pril.Some? && (toggle || toggleLarge)) &&
      (o.cameraPriLeft.Some? ==> o.cameraPriLeft.value == processFrame(p.pril.value, 1) &&
                                 o.cameraPriRight.value == processFrame(p.prir.value, 1)) &&
      (o.audioPriWide == if p.priw.Some? then processFrame(p.priw.value, 1) else PRIW_PLACEHOLDER)
    ensures r.Ok? ==>
      var o := r.value;
      o.cameraImgLeftLarge == o.cameraImgLeft && o.cameraImgRightLarge == o.cameraImgRight &&
      o.cameraPriLeftLarge == o.cameraPriLeft && o.cameraPriRightLarge == o.cameraPriRight
  {
    if p.caml.None? then
      // The test patterns are chosen, but the wide source never is.
      Err(PriwUnassigned)
    else if p.camr.None? then
      Err(RightCameraMissing)
    else
      var camlImage := processFrame(p.caml.value, CAM_SCALE);
      var camrImage := processFrame(p.camr.value, CAM_SCALE);
      if p.pril.Some? && (toggle || toggleLarge) && p.prir.None? then
        Err(RightOverlayMissing)
      else
        var overlays :=
          if p.pril.Some? && (toggle || toggleLarge) then
            (Some(processFrame(p.pril.value, 1)), Some(processFrame(p.prir.value, 1)))
          else (None, None);
        var priwImage := if p.priw.Some? then processFrame(p.priw.value, 1) else PRIW_PLACEHOLDER;
        Ok(MediumOutputs(priwImage, camlImage, camrImage, overlays.0, overlays.1,
                         camlImage, camrImage, overlays.0, overlays.1))
  }

  /** With both attention toggles off, no overlay is shown on either size,
      whatever frames are present. */
  lemma OverlaysNeedToggle<F>(p: Perception<F>, processFrame: (F, nat) -> string)
    requires p.caml.Some? && p.camr.Some?
    ensures var r := CallbackMedium(p, false, false, processFrame);
      r.Ok? && r.value.cameraPriLeft == None && r.value.cameraPriRight == None &&
      r.value.cameraPriLeftLarge == None && r.value.cameraPriRightLarge == None
  {
  }
}

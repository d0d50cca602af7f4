/** Settings normalisation and camera-control selection of `input_init`, starting from the
    settings record the option parser produced. */
module Init {
  import opened Common
  import opened Controls
  import opened Command

  /** `context_settings`: a zero value means "not given". The `*_set` flags are written by the
      option parser and never read afterwards, so they are not modelled. */
  datatype ContextSettings = ContextSettings(
    fps: int, quality: int, buffercount: int,
    co: int, br: int, sa: int, gain: int, ex: int,
    afmode: int, afrange: int, lensposition: int,
    camera: int, rotation: int)

  /** `init_settings`: a zeroed record whose JPEG quality is 80. */
  const InitSettings: ContextSettings := ContextSettings(0, 80, 0, 0, 0, 0, 0, 0, 0, 0, 0, 0, 0)

  /** The quality option: the given value is clamped into [0, 100]; nothing else changes. */
  function WithQuality(s: ContextSettings, q: int): (r: ContextSettings)
    ensures 0 <= r.quality <= 100
    ensures 0 <= q <= 100 ==> r.quality == q
    ensures q < 0 ==> r.quality == 0
    ensures q > 100 ==> r.quality == 100
    ensures r.(quality := s.quality) == s
  {
    var clamped := if q < 0 then 0 else if q > 100 then 100 else q;
    s.(quality := clamped)
  }

  /** The buffer count used: 4 when none was given, otherwise at least 1. */
  function NormalisedBufferCount(b: int): (r: int)
    ensures r >= 1
    ensures b == 0 ==> r == 4
    ensures b > 0 ==> r == b
    ensures b < 0 ==> r == 1
  {
    if b == 0 then 4 else if b < 1 then 1 else b
  }

  /** `1000000 / fps` in C, which truncates toward zero: the frame duration in µs. */
  function FrameDuration(fps: int): (t: int)
    requires fps != 0
    ensures fps > 0 ==> 0 <= t && t * fps <= 1000000 < (t + 1) * fps
    ensures fps < 0 ==> t <= 0 && (-t) * (-fps) <= 1000000 < (-t + 1) * (-fps)
  {
    if fps > 0 then 1000000 / fps else -(1000000 / -fps)
  }

  /** Some optional camera control was given. */
  predicate AnyControlSet(s: ContextSettings) {
    s.fps != 0 || s.br != 0 || s.co != 0 || s.sa != 0 || s.gain != 0 || s.ex != 0
    || s.afmode != 0 || s.afrange != 0 || s.lensposition != 0
  }

  /** The value of an integer setting as a control: present exactly when it is non-zero. */
  function IfGiven(v: int): Option<int> {
    if v != 0 then Some(v) else None
  }

  /** The control-selection rule of `input_init`: every control is present exactly when its
      setting is non-zero and carries the setting's value, with three exceptions. Both frame
      duration limits are 1000000 / fps µs. A lens position forces AfMode to Manual. AfTrigger
      = Start is present exactly when the requested autofocus mode is Auto. */
  ghost predicate Selected(s: ContextSettings, c: ControlList) {
    ImageSelected(s, c) && FocusSelected(s, c)
  }

  /** The frame-rate and image part of the rule. */
  ghost predicate ImageSelected(s: ContextSettings, c: ControlList) {
    && c.frameDurationLimits == (if s.fps != 0 then Some((FrameDuration(s.fps), FrameDuration(s.fps))) else None)
    && c.brightness == IfGiven(s.br)
    && c.contrast == IfGiven(s.co)
    && c.saturation == IfGiven(s.sa)
    && c.analogueGain == IfGiven(s.gain)
    && c.exposureTime == IfGiven(s.ex)
  }

  /** The autofocus part of the rule. */
  ghost predicate FocusSelected(s: ContextSettings, c: ControlList) {
    && c.afMode == (if s.afmode == 0 then None else if s.lensposition != 0 then Some(AfModeManual) else Some(s.afmode))
    && c.afTrigger == (if s.afmode == AfModeAuto then Some(AfTriggerStart) else None)
    && c.afRange == IfGiven(s.afrange)
    && c.lensPosition == IfGiven(s.lensposition)
  }

  /** The camera gets some control exactly when some optional setting was given. */
  lemma SelectedEmptyIffNothingSet(s: ContextSettings, c: ControlList)
    requires Selected(s, c)
    ensures c == NoControls <==> !AnyControlSet(s)
  {
  }

  /** Auto focus together with a lens position: the camera gets Manual mode, the lens position
      and still an AfTrigger = Start. */
  lemma AutoWithLensPosition(s: ContextSettings, c: ControlList)
    requires Selected(s, c) && s.afmode == AfModeAuto && s.lensposition != 0
    ensures c.afMode == Some(AfModeManual)
    ensures c.afTrigger == Some(AfTriggerStart)
    ensures c.lensPosition == Some(s.lensposition)
  {
  }

  /** Since Manual is libcamera's zero value, asking for Manual focus sets no focus mode and no
      trigger at all. */
  lemma ManualModeSelectsNothing(s: ContextSettings, c: ControlList)
    requires Selected(s, c) && s.afmode == AfModeManual
    ensures c.afMode == None && c.afTrigger == None
  {
  }

  /** With no option given, the JPEG quality is 80, four buffers are used and no control is
      sent to the camera. */
  lemma DefaultSettings()
    ensures InitSettings.quality == 80
    ensures NormalisedBufferCount(InitSettings.buffercount) == 4
    ensures !AnyControlSet(InitSettings)
  {
  }

  /** The control list of `input_init`, built by successive conditional updates; `flag`
      (`controls_flag`) tells whether `camera.set` is called. */
  method AssembleControls(s: ContextSettings) returns (controls: ControlList, flag: bool)
    ensures Selected(s, controls)
    ensures flag <==> AnyControlSet(s)
    ensures flag <==> controls != NoControls
  {
    controls, flag := AddImageControls(s);
    controls, flag := AddFocusControls(s, controls, flag);
  }

  /** The frame-rate and image blocks, applied to an empty control list. */
  method AddImageControls(s: ContextSettings) returns (controls: ControlList, flag: bool)
    ensures ImageSelected(s, controls)
    ensures controls.afMode == None && controls.afTrigger == None && controls.afRange == None && controls.lensPosition == None
    ensures flag <==> controls != NoControls
  {
    controls, flag := NoControls, false;
    if s.fps != 0 {
      var frameTime := FrameDuration(s.fps);
      controls := controls.(frameDurationLimits := Some((frameTime, frameTime)));
      flag := true;
    }
    if s.br != 0 {
      controls := controls.(brightness := Some(s.br));
      flag := true;
    }
    if s.co != 0 {
      controls := controls.(contrast := Some(s.co));
      flag := true;
    }
    if s.sa != 0 {
      controls := controls.(saturation := Some(s.sa));
      flag := true;
    }
    if s.gain != 0 {
      controls := controls.(analogueGain := Some(s.gain));
      flag := true;
    }
    if s.ex != 0 {
      controls := controls.(exposureTime := Some(s.ex));
      flag := true;
    }
  }

  /** The autofocus blocks, applied to a list with no focus control yet: they set the focus
      slots by the rule and leave every other slot as it was. */
  method AddFocusControls(s: ContextSettings, c0: ControlList, f0: bool) returns (controls: ControlList, flag: bool)
    requires c0.afMode == None && c0.afTrigger == None && c0.afRange == None && c0.lensPosition == None
    ensures FocusSelected(s, controls)
    ensures controls == c0.(afMode := controls.afMode, afTrigger := controls.afTrigger,
                            afRange := controls.afRange, lensPosition := controls.lensPosition)
    ensures flag <==> f0 || s.afmode != 0 || s.afrange != 0 || s.lensposition != 0
  {
    controls, flag := c0, f0;
    if s.afmode != 0 {
      if s.lensposition != 0 {
        controls := controls.(afMode := Some(AfModeManual));
      } else {
        controls := controls.(afMode := Some(s.afmode));
      }
      if s.afmode == AfModeAuto {
        controls := controls.(afTrigger := Some(AfTriggerStart));
      }
      flag := true;
    }
    if s.afrange != 0 {
      controls := controls.(afRange := Some(s.afrange));
      flag := true;
    }
    if s.lensposition != 0 {
      controls := controls.(lensPosition := Some(s.lensposition));
      flag := true;
    }
  }

  /** What the camera reports during initialisation: whether `initCamera` succeeded and whether
      the `vdIn` record could be allocated. */
  datatype InitReplies = InitReplies(cameraInitialised: bool, videoInAllocated: bool)

  /** The state `input_init` leaves behind: the normalised settings, the still configuration
      the camera was given, the control list passed to `camera.set` (if any) and `vdIn`. */
  datatype Session = Session(settings: ContextSettings, camera: StreamConfig, applied: Option<ControlList>, video: VideoIn)

  /** `input_init`'s outcome: the registered parameter table and either a ready session or the
      fatal path (cleanup, then process exit). */
  datatype InitResult =
    | Ready(parameters: seq<Parameter>, session: Session)
    | Fatal(parameters: seq<Parameter>)

  /** A session as `input_init` leaves it for the worker: at least one buffer, a JPEG quality in
      [0, 100], and the camera configured with the `vdIn` size. */
  predicate SessionReady(s: Session) {
    && s.settings.buffercount >= 1
    && 0 <= s.settings.quality <= 100
    && s.camera == StreamConfig(s.video.width, s.video.height, s.settings.buffercount, s.settings.rotation)
  }

  /** `input_init` after option parsing, whose quality is the default or clamped: registers
      AfTrigger, normalises the buffer count, initialises and configures the camera, applies the
      selected controls and records the requested size and snapshot size in `vdIn`. */
  method InputInit(parsed: ContextSettings, width: U32, height: U32, snapshotWidth: U32, snapshotHeight: U32,
                   replies: InitReplies)
    returns (r: InitResult)
    requires 0 <= parsed.quality <= 100  // the default 80, or a value clamped by WithQuality
    ensures r.parameters == [AfTriggerParameter]
    ensures r.Ready? <==> replies.cameraInitialised && replies.videoInAllocated
    ensures r.Ready? ==> SessionReady(r.session)
    ensures r.Ready? ==> r.session.settings == parsed.(buffercount := NormalisedBufferCount(parsed.buffercount))
    ensures r.Ready? ==> r.session.camera == StreamConfig(width, height, r.session.settings.buffercount, parsed.rotation)
    ensures r.Ready? ==> (r.session.applied.Some? <==> AnyControlSet(parsed))
    ensures r.Ready? && r.session.applied.Some? ==> Selected(parsed, r.session.applied.value)
    ensures r.Ready? ==> r.session.video == VideoIn(width, height, 0, snapshotWidth, snapshotHeight)
  {
    var parameters := [AfTriggerParameter];
    var settings := parsed;
    if settings.buffercount == 0 {
      settings := settings.(buffercount := 4);
    } else {
      settings := settings.(buffercount := if settings.buffercount < 1 then 1 else settings.buffercount);
    }
    if !replies.cameraInitialised {
      return Fatal(parameters);
    }
    var camera := StreamConfig(width, height, settings.buffercount, settings.rotation);
    var controls, flag := AssembleControls(settings);
    var applied := if flag then Some(controls) else None;
    if !replies.videoInAllocated {
      return Fatal(parameters);
    }
    // the stride is not written here; the worker reads it from the camera when it starts
    var video := VideoIn(width, height, 0, snapshotWidth, snapshotHeight);
    return Ready(parameters, Session(settings, camera, applied, video));
  }
}

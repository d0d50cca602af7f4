/** The libcamera controls the plugin sets, and the enumeration values it uses. */
module Controls {
  import opened Common

  /** A libcamera `ControlList` restricted to the controls this plugin sets: each slot is None
      until the control is set, and setting it again keeps the last value.
      `frameDurationLimits` holds the (minimum, maximum) frame duration in µs. */
  datatype ControlList = ControlList(
    frameDurationLimits: Option<(int, int)>,
    brightness: Option<int>,
    contrast: Option<int>,
    saturation: Option<int>,
    analogueGain: Option<int>,
    exposureTime: Option<int>,
    afMode: Option<int>,
    afTrigger: Option<int>,
    afRange: Option<int>,
    lensPosition: Option<int>)

  /** A freshly constructed, empty control list. */
  const NoControls: ControlList := ControlList(None, None, None, None, None, None, None, None, None, None)

  // libcamera's values of the AfMode, AfRange and AfTrigger enumerations
  const AfModeManual: int := 0
  const AfModeAuto: int := 1
  const AfModeContinuous: int := 2
  const AfRangeNormal: int := 0
  const AfRangeMacro: int := 1
  const AfRangeFull: int := 2
  const AfTriggerStart: int := 0
  const AfTriggerCancel: int := 1
}

/** The outcomes of every call that leaves the subsystem, for one command.  Each
    may succeed or fail independently; nothing is assumed about them. */
module Environment {
  import opened Common

  datatype Env = Env(
    // the extension library
    dlopenOk: bool, symbolOk: bool, allocOk: bool,
    // the common-event service and the power manager (absent when not built in)
    subscriberOk: bool, subscribeOk: bool, powerScreenOn: Option<bool>,
    // the rendering service
    screenId: Option<nat>, directorOk: bool, nodeOk: bool,
    display: Option<(int32, int32)>, surfaceOk: bool, contextOk: bool,
    // the display power manager; UINT32_MAX when it is not built in or fails
    brightness: uint32,
    frameOk: bool, skSurfaceOk: bool, canvasOk: bool,
    // the timer library
    timerOk: bool)
}

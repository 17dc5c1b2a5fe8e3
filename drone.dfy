/**
 * The vehicle interface as the control core sees it: the commands it sends to
 * the Tello (which the model records in an append-only log) and the messages
 * it shows on the status line (the window caption).
 */
module Drone {

  /** The eight discrete motion commands; each takes a speed, 0 meaning "stop". */
  datatype Motion = Up | Down | Left | Right | Forward | Backward | Clockwise | CounterClockwise

  /** The four analog control channels set by `set_throttle`, `set_yaw`, `set_pitch`, `set_roll`. */
  datatype Stick = Throttle | Yaw | Pitch | Roll

  /** One call on the drone object. */
  datatype Command =
    | Move(motion: Motion, speed: int)
    | Set(stick: Stick, value: real)
    | Takeoff
    | Land
    | PalmLand
    | TakePicture
    | SetVideoMode(zoom: bool)
    | SetVideoEncoderRate(rate: int)
    | Quit

  /** A message passed to `status_print`. */
  datatype Status =
    | RecordingTo(filename: string)
    | VideoSaved(filename: string)
    | WriteFailed(error: string)

  /** The caption text `status_print` receives for each message. */
  function Caption(st: Status): (c: string)
    ensures !st.WriteFailed? ==> |st.filename| <= |c| && c[|c| - |st.filename|..] == st.filename
    ensures st.WriteFailed? ==> c == st.error
  {
    match st
    case RecordingTo(f) => "Recording video to " + f
    case VideoSaved(f) => "Video saved to " + f
    case WriteFailed(e) => e
  }
}

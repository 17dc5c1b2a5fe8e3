/**
 * The keyboard dispatch table `controls`: each key name is bound either to a
 * drone action called with the key's speed, or to a handler.
 */
module Keyboard {
  import D = Drone

  /** The `speed = 30` that `main` passes to every key handler. */
  const KeyboardSpeed: int := 30

  /** The handler entries of the table. */
  datatype Handler =
    | Fast(motion: D.Motion)        // an arrow key: the motion at twice the speed
    | TakeoffKey                    // takeoff(), whatever the speed
    | LandKey                       // land(), whatever the speed
    | PalmLandKey                   // palm_land
    | RecordKey                     // toggle_recording
    | ZoomKey                       // toggle_zoom
    | PictureKey                    // take_picture
    | EncoderRate(rate: int)        // set_video_encoder_rate(rate), whatever the speed

  /** An entry is a plain action name (a motion) or a handler. */
  datatype Binding = Action(motion: D.Motion) | Handler(handler: Handler)

  /** The handlers that return at once when called with speed 0. */
  predicate Gated(h: Handler)
  {
    h.PalmLandKey? || h.RecordKey? || h.ZoomKey? || h.PictureKey?
  }

  const Controls: map<string, Binding> := map[
    "w" := Action(D.Forward),
    "s" := Action(D.Backward),
    "a" := Action(D.Left),
    "d" := Action(D.Right),
    "space" := Action(D.Up),
    "left shift" := Action(D.Down),
    "right shift" := Action(D.Down),
    "q" := Action(D.CounterClockwise),
    "e" := Action(D.Clockwise),
    "left" := Handler(Fast(D.CounterClockwise)),
    "right" := Handler(Fast(D.Clockwise)),
    "up" := Handler(Fast(D.Up)),
    "down" := Handler(Fast(D.Down)),
    "tab" := Handler(TakeoffKey),
    "backspace" := Handler(LandKey),
    "p" := Handler(PalmLandKey),
    "r" := Handler(RecordKey),
    "z" := Handler(ZoomKey),
    "enter" := Handler(PictureKey),
    "return" := Handler(PictureKey),
    "0" := Handler(EncoderRate(0)),
    "1" := Handler(EncoderRate(1)),
    "2" := Handler(EncoderRate(2)),
    "3" := Handler(EncoderRate(3)),
    "4" := Handler(EncoderRate(4)),
    "5" := Handler(EncoderRate(5))]

  /** The handler behind `r`, `z`, `enter`, `return` and `p`. */
  lemma GatedEntries()
    ensures "r" in Controls && Controls["r"] == Handler(RecordKey)
    ensures "z" in Controls && Controls["z"] == Handler(ZoomKey)
    ensures "enter" in Controls && Controls["enter"] == Handler(PictureKey)
    ensures "return" in Controls && Controls["return"] == Handler(PictureKey)
    ensures "p" in Controls && Controls["p"] == Handler(PalmLandKey)
  {
  }

  /** The quit key, looked at before the table. */
  const QuitKey: string := "escape"

  lemma QuitKeyIsUnbound()
    ensures QuitKey !in Controls
  {
  }
}

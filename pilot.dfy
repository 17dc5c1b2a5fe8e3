/**
 * The control session as a value: the four control scalars, the recording
 * and zoom state, the two video sinks, the last telemetry printout, and the
 * logs of what was sent to the drone, shown on the status line and drawn on
 * the display. Each handler of the source is a function from the state
 * before it to the state after it; the class `KeyboardAndVideo.Session`
 * implements them statement by statement.
 */
module Pilot {
  import opened Wrappers
  import opened Drone
  import X = JoystickX360
  import K = Keyboard
  import Smoother
  import Hud

  /** The pygame events the loop drains. */
  datatype Event =
    | AxisMotion(axis: int, value: real)
    | HatMotion(x: int, y: int)
    | ButtonDown(button: int)
    | ButtonUp(button: int)
    | KeyDown(key: string)
    | KeyUp(key: string)
    | OtherEvent

  datatype State = State(
    throttle: real,
    yaw: real,
    pitch: real,
    roll: real,
    recording: Option<string>,       // `video_recorder`: the file an open recording goes to
    zoom: bool,                      // `drone.zoom`
    player: bool,                    // `video_player is not None`
    prevFlightData: Option<string>,  // `prev_flight_data`
    sent: seq<Command>,              // the calls made on the drone, oldest first
    status: seq<Status>,             // the `status_print` messages, oldest first
    screen: seq<Hud.Frame>)          // what was drawn on the display, oldest first
  {
    function Channel(k: Stick): real
    {
      match k
      case Throttle => throttle
      case Yaw => yaw
      case Pitch => pitch
      case Roll => roll
    }

    function WithChannel(k: Stick, v: real): State
    {
      match k
      case Throttle => this.(throttle := v)
      case Yaw => this.(yaw := v)
      case Pitch => this.(pitch := v)
      case Roll => this.(roll := v)
    }
  }

  /** The module globals at import time, with the drone's zoom flag as it comes. */
  function Initial(zoom: bool): (s: State)
    ensures InRange(s) && s.throttle == 0.0 && s.yaw == 0.0 && s.pitch == 0.0 && s.roll == 0.0
    ensures s.recording.None? && !s.player && s.prevFlightData.None? && s.zoom == zoom
    ensures s.sent == [] && s.status == [] && s.screen == []
  {
    State(0.0, 0.0, 0.0, 0.0, None, zoom, false, None, [], [], [])
  }

  /** All four control scalars lie in [-1, 1]. */
  predicate InRange(s: State)
  {
    && -1.0 <= s.throttle <= 1.0 && -1.0 <= s.yaw <= 1.0
    && -1.0 <= s.pitch <= 1.0 && -1.0 <= s.roll <= 1.0
  }

  /** Only the command log differs between `s` and `t`. */
  predicate OnlyLog(s: State, t: State)
  {
    t.(sent := s.sent) == s
  }

  /** Only the control scalars and the command log differ between `s` and `t`. */
  predicate OnlyControls(s: State, t: State)
  {
    t.(throttle := s.throttle, yaw := s.yaw, pitch := s.pitch, roll := s.roll, sent := s.sent) == s
  }

  /** The control scalars of `s` and `t` agree. */
  predicate SameControls(s: State, t: State)
  {
    s.throttle == t.throttle && s.yaw == t.yaw && s.pitch == t.pitch && s.roll == t.roll
  }

  /** Every axis reading among `events` lies in [-1, 1], as pygame delivers them. */
  predicate ReadingsInRange(events: seq<Event>)
  {
    forall i :: 0 <= i < |events| && events[i].AxisMotion? ==> -1.0 <= events[i].value <= 1.0
  }

  function Send(s: State, c: Command): State
  {
    s.(sent := s.sent + [c])
  }

  // ---------------------------------------------------------------------------
  // handle_input_event

  /** Set one channel to `v`, call its setter, and its stop command when the reading was zeroed. */
  function Drive(s: State, k: Stick, v: real, zeroed: bool, stop: Motion): State
  {
    s.WithChannel(k, v).(sent := s.sent + [Set(k, v)] + (if zeroed then [Move(stop, 0)] else []))
  }

  /** `Drive` sets exactly the one channel and logs its setter, then the stop command when zeroed. */
  lemma DriveSetsOneChannel(s: State, k: Stick, v: real, zeroed: bool, stop: Motion)
    ensures var t := Drive(s, k, v, zeroed, stop);
            && t.Channel(k) == v
            && (forall j :: j != k ==> t.Channel(j) == s.Channel(j))
            && t.sent == s.sent + [Set(k, v)] + (if zeroed then [Move(stop, 0)] else [])
  {
  }

  /** An axis event; `AxisFollowsBinding` states what it does. */
  function Axis(s: State, axis: int, value: real): (t: State)
    ensures OnlyControls(s, t)
  {
    var zeroed := X.InDeadzone(value);
    var v := if zeroed then 0.0 else value;
    var s1 := if axis == X.LeftY
      then Drive(s, Throttle, Smoother.Update(s.throttle, v * X.LeftYReverse, Smoother.MaxDelta), zeroed, Up)
      else s;
    var s2 := if axis == X.LeftX
      then Drive(s1, Yaw, Smoother.Update(s1.yaw, v * X.LeftXReverse, Smoother.MaxDelta), zeroed, Clockwise)
      else s1;
    var s3 := if axis == X.RightY
      then Drive(s2, Pitch, Smoother.Update(s2.pitch, v * X.RightYReverse, Smoother.MaxDelta), zeroed, Forward)
      else s2;
    if axis == X.RightX
    then Drive(s3, Roll, Smoother.Update(s3.roll, v * X.RightXReverse, Smoother.MaxDelta), zeroed, Left)
    else s3
  }

  /**
   * An axis event follows the binding table: a reading in the deadzone is
   * fed to the smoother as 0.0 and also stops the bound motion; the bound
   * channel is smoothed toward the reversed reading and its setter called
   * once; the other channels are left alone; an unbound axis does nothing.
   */
  lemma AxisFollowsBinding(s: State, axis: int, value: real)
    ensures var t := Axis(s, axis, value);
            X.AxisBinding(axis).None? ==> t == s
    ensures var t := Axis(s, axis, value);
            X.AxisBinding(axis).Some? ==>
              var m := X.AxisBinding(axis).value;
              && t.Channel(m.stick)
                 == Smoother.Update(s.Channel(m.stick),
                                    if X.InDeadzone(value) then 0.0 else value * m.reverse,
                                    Smoother.MaxDelta)
              && (forall k :: k != m.stick ==> t.Channel(k) == s.Channel(k))
              && t.sent == s.sent + [Set(m.stick, t.Channel(m.stick))]
                                  + (if X.InDeadzone(value) then [Move(m.stop, 0)] else [])
  {
    var v := if X.InDeadzone(value) then 0.0 else value;
    if axis == X.LeftY {
      assert Axis(s, axis, value)
          == Drive(s, Throttle, Smoother.Update(s.throttle, v * X.LeftYReverse, Smoother.MaxDelta), X.InDeadzone(value), Up);
      DriveSetsOneChannel(s, Throttle, Smoother.Update(s.throttle, v * X.LeftYReverse, Smoother.MaxDelta), X.InDeadzone(value), Up);
    } else if axis == X.LeftX {
      assert Axis(s, axis, value)
          == Drive(s, Yaw, Smoother.Update(s.yaw, v * X.LeftXReverse, Smoother.MaxDelta), X.InDeadzone(value), Clockwise);
      DriveSetsOneChannel(s, Yaw, Smoother.Update(s.yaw, v * X.LeftXReverse, Smoother.MaxDelta), X.InDeadzone(value), Clockwise);
    } else if axis == X.RightY {
      assert Axis(s, axis, value)
          == Drive(s, Pitch, Smoother.Update(s.pitch, v * X.RightYReverse, Smoother.MaxDelta), X.InDeadzone(value), Forward);
      DriveSetsOneChannel(s, Pitch, Smoother.Update(s.pitch, v * X.RightYReverse, Smoother.MaxDelta), X.InDeadzone(value), Forward);
    } else if axis == X.RightX {
      assert Axis(s, axis, value)
          == Drive(s, Roll, Smoother.Update(s.roll, v * X.RightXReverse, Smoother.MaxDelta), X.InDeadzone(value), Left);
      DriveSetsOneChannel(s, Roll, Smoother.Update(s.roll, v * X.RightXReverse, Smoother.MaxDelta), X.InDeadzone(value), Left);
    } else {
      assert Axis(s, axis, value) == s;
    }
  }

  /** Readings in [-1, 1] keep the control scalars in [-1, 1]. */
  lemma AxisKeepsRange(s: State, axis: int, value: real)
    ensures InRange(s) && -1.0 <= value <= 1.0 ==> InRange(Axis(s, axis, value))
  {
    if InRange(s) && -1.0 <= value <= 1.0 {
      var v := if X.InDeadzone(value) then 0.0 else value;
      if axis == X.LeftY {
        Smoother.UpdateStaysInUnitRange(s.throttle, v * X.LeftYReverse, Smoother.MaxDelta);
      } else if axis == X.LeftX {
        Smoother.UpdateStaysInUnitRange(s.yaw, v * X.LeftXReverse, Smoother.MaxDelta);
      } else if axis == X.RightY {
        Smoother.UpdateStaysInUnitRange(s.pitch, v * X.RightYReverse, Smoother.MaxDelta);
      } else if axis == X.RightX {
        Smoother.UpdateStaysInUnitRange(s.roll, v * X.RightXReverse, Smoother.MaxDelta);
      }
    }
  }

  /** The command one hat coordinate selects: `neg(speed)` below zero, `pos(0)` at zero, `pos(speed)` above. */
  function HatCommand(v: int, neg: Motion, pos: Motion, speed: int): Command
  {
    if v < 0 then Move(neg, speed) else if v == 0 then Move(pos, 0) else Move(pos, speed)
  }

  /** A d-pad event: exactly one yaw command, then exactly one vertical command. */
  function Hat(s: State, x: int, y: int, speed: int): (t: State)
    ensures OnlyLog(s, t)
    ensures t.sent == s.sent + [HatCommand(x, CounterClockwise, Clockwise, speed), HatCommand(y, Down, Up, speed)]
  {
    var s1 := if x < 0 then Send(s, Move(CounterClockwise, speed)) else s;
    var s2 := if x == 0 then Send(s1, Move(Clockwise, 0)) else s1;
    var s3 := if x > 0 then Send(s2, Move(Clockwise, speed)) else s2;
    var s4 := if y < 0 then Send(s3, Move(Down, speed)) else s3;
    var s5 := if y == 0 then Send(s4, Move(Up, 0)) else s4;
    if y > 0 then Send(s5, Move(Up, speed)) else s5
  }

  /** A button press: land, or a movement button's motion at `speed`, or nothing. */
  function ButtonPress(s: State, b: int, speed: int): (t: State)
    ensures OnlyLog(s, t)
    ensures b == X.Land ==> t.sent == s.sent + [Land]
    ensures X.ButtonMotion(b).Some? ==> t.sent == s.sent + [Move(X.ButtonMotion(b).value, speed)]
    ensures b != X.Land && X.ButtonMotion(b).None? ==> t == s
  {
    if b == X.Land then Send(s, Land)
    else if b == X.Up then Send(s, Move(Up, speed))
    else if b == X.Down then Send(s, Move(Down, speed))
    else if b == X.RotateRight then Send(s, Move(Clockwise, speed))
    else if b == X.RotateLeft then Send(s, Move(CounterClockwise, speed))
    else if b == X.Forward then Send(s, Move(Forward, speed))
    else if b == X.Backward then Send(s, Move(Backward, speed))
    else if b == X.Right then Send(s, Move(Right, speed))
    else if b == X.Left then Send(s, Move(Left, speed))
    else s
  }

  /** A button release: take off, or stop a movement button's motion, or nothing. */
  function ButtonRelease(s: State, b: int): (t: State)
    ensures OnlyLog(s, t)
    ensures b == X.Takeoff ==> t.sent == s.sent + [Takeoff]
    ensures X.ButtonMotion(b).Some? ==> t.sent == s.sent + [Move(X.ButtonMotion(b).value, 0)]
    ensures b != X.Takeoff && X.ButtonMotion(b).None? ==> t == s
  {
    if b == X.Takeoff then Send(s, Takeoff)
    else if b == X.Up then Send(s, Move(Up, 0))
    else if b == X.Down then Send(s, Move(Down, 0))
    else if b == X.RotateRight then Send(s, Move(Clockwise, 0))
    else if b == X.RotateLeft then Send(s, Move(CounterClockwise, 0))
    else if b == X.Forward then Send(s, Move(Forward, 0))
    else if b == X.Backward then Send(s, Move(Backward, 0))
    else if b == X.Right then Send(s, Move(Right, 0))
    else if b == X.Left then Send(s, Move(Left, 0))
    else s
  }

  /**
   * `handle_input_event`: joystick events drive the controls and the drone
   * at the joystick speed; key events and others are left alone.
   */
  function Input(s: State, e: Event): (t: State)
    ensures OnlyControls(s, t)
    ensures !e.AxisMotion? ==> OnlyLog(s, t)
    ensures e.KeyDown? || e.KeyUp? || e.OtherEvent? ==> t == s
    ensures InRange(s) && (e.AxisMotion? ==> -1.0 <= e.value <= 1.0) ==> InRange(t)
  {
    match e
    case AxisMotion(axis, value) => AxisKeepsRange(s, axis, value); Axis(s, axis, value)
    case HatMotion(x, y) => Hat(s, x, y, X.JoystickSpeed)
    case ButtonDown(b) => ButtonPress(s, b, X.JoystickSpeed)
    case ButtonUp(b) => ButtonRelease(s, b)
    case _ => s
  }

  // ---------------------------------------------------------------------------
  // The key handlers

  /**
   * `toggle_recording`: speed 0 does nothing; otherwise an open recording is
   * closed and its file reported, or a new one is opened on `filename`.
   */
  function ToggleRecording(s: State, speed: int, filename: string): (t: State)
    ensures speed == 0 ==> t == s
    ensures speed != 0 ==> (t.recording.Some? <==> s.recording.None?)
    ensures speed != 0 && s.recording.None? ==>
              t.recording == Some(filename) && t.status == s.status + [RecordingTo(filename)]
    ensures speed != 0 && s.recording.Some? ==> t.status == s.status + [VideoSaved(s.recording.value)]
    ensures t.(recording := s.recording, status := s.status) == s
  {
    if speed == 0 then s
    else if s.recording.Some? then
      s.(status := s.status + [VideoSaved(s.recording.value)], recording := None)
    else
      s.(recording := Some(filename), status := s.status + [RecordingTo(filename)])
  }

  /** `take_picture`. */
  function TakePicture(s: State, speed: int): (t: State)
    ensures speed == 0 ==> t == s
    ensures speed != 0 ==> OnlyLog(s, t) && t.sent == s.sent + [Command.TakePicture]
  {
    if speed == 0 then s else Send(s, Command.TakePicture)
  }

  /** `palm_land`. */
  function PalmLand(s: State, speed: int): (t: State)
    ensures speed == 0 ==> t == s
    ensures speed != 0 ==> OnlyLog(s, t) && t.sent == s.sent + [Command.PalmLand]
  {
    if speed == 0 then s else Send(s, Command.PalmLand)
  }

  /**
   * `toggle_zoom`: speed 0 does nothing; otherwise the drone is told the
   * opposite video mode and the display is filled black.
   */
  function ToggleZoom(s: State, speed: int): (t: State)
    ensures speed == 0 ==> t == s
    ensures speed != 0 ==> t.zoom == !s.zoom && t.sent == s.sent + [SetVideoMode(t.zoom)]
                           && t.screen == s.screen + [Hud.Blank]
    ensures t.(zoom := s.zoom, sent := s.sent, screen := s.screen) == s
  {
    if speed == 0 then s
    else s.(sent := s.sent + [SetVideoMode(!s.zoom)], zoom := !s.zoom, screen := s.screen + [Hud.Blank])
  }

  /** A handler entry of the key table called with `speed`. */
  function RunHandler(s: State, h: K.Handler, speed: int, filename: string): (t: State)
    ensures K.Gated(h) && speed == 0 ==> t == s
    ensures !h.RecordKey? && !h.ZoomKey? ==> OnlyLog(s, t)
    ensures h.TakeoffKey? ==> t == Send(s, Takeoff)
    ensures h.LandKey? ==> t == Send(s, Land)
    ensures h.EncoderRate? ==> t == Send(s, SetVideoEncoderRate(h.rate))
    ensures h.Fast? ==> t == Send(s, Move(h.motion, 2 * speed))
    ensures !K.Gated(h) ==> |t.sent| == |s.sent| + 1 && t.sent[..|s.sent|] == s.sent
    ensures SameControls(s, t) && t.player == s.player && t.prevFlightData == s.prevFlightData
  {
    match h
    case Fast(m) => Send(s, Move(m, speed * 2))
    case TakeoffKey => Send(s, Takeoff)
    case LandKey => Send(s, Land)
    case PalmLandKey => PalmLand(s, speed)
    case RecordKey => ToggleRecording(s, speed, filename)
    case ZoomKey => ToggleZoom(s, speed)
    case PictureKey => TakePicture(s, speed)
    case EncoderRate(rate) => Send(s, SetVideoEncoderRate(rate))
  }

  /**
   * A key looked up in the table with `speed`: an action name is called
   * with it, a handler gets it; unbound keys do nothing, and no key touches
   * the control scalars, the sinks or the telemetry printout.
   */
  function Key(s: State, key: string, speed: int, filename: string): (t: State)
    ensures key !in K.Controls ==> t == s
    ensures key in K.Controls && K.Controls[key].Action? ==>
              t == Send(s, Move(K.Controls[key].motion, speed))
    ensures key in K.Controls && K.Controls[key].Handler? && K.Gated(K.Controls[key].handler) && speed == 0 ==>
              t == s
    ensures SameControls(s, t) && t.player == s.player && t.prevFlightData == s.prevFlightData
  {
    if key in K.Controls then
      match K.Controls[key]
      case Action(m) => Send(s, Move(m, speed))
      case Handler(h) => RunHandler(s, h, speed, filename)
    else
      s
  }

  // ---------------------------------------------------------------------------
  // The loop of `main` and its `finally`

  /**
   * One event of the loop: `handle_input_event`, then on KEYDOWN the quit
   * key (the drone is told to quit and the loop ends) or the key table at
   * the keyboard speed, and on KEYUP the key table at speed 0.
   */
  function Step(s: State, e: Event, filename: string): (r: (State, bool))
    ensures r.1 <==> e == KeyDown(K.QuitKey)
    ensures r.1 ==> r.0 == Send(s, Quit)
    ensures e.KeyDown? && !r.1 ==> r.0 == Key(s, e.key, K.KeyboardSpeed, filename)
    ensures e.KeyUp? ==> r.0 == Key(s, e.key, 0, filename)
    ensures !e.KeyDown? && !e.KeyUp? ==> r.0 == Input(s, e)
  {
    var s1 := Input(s, e);
    match e
    case KeyDown(key) =>
      if key == K.QuitKey then (Send(s1, Quit), true) else (Key(s1, key, K.KeyboardSpeed, filename), false)
    case KeyUp(key) => (Key(s1, key, 0, filename), false)
    case _ => (s1, false)
  }

  /** The quit key is pressed somewhere among `events`. */
  predicate HasQuit(events: seq<Event>)
  {
    exists i :: 0 <= i < |events| && events[i] == KeyDown(K.QuitKey)
  }

  /**
   * The events of one drained queue in order, `filenames[i]` being the
   * recording name the clock would give while `events[i]` is handled;
   * processing stops at the quit key, and the flag says whether it was seen.
   */
  function Run(s: State, events: seq<Event>, filenames: seq<string>): (r: (State, bool))
    requires |filenames| == |events|
    ensures r.1 <==> HasQuit(events)
    ensures InRange(s) && ReadingsInRange(events) ==> InRange(r.0)
    decreases |events|
  {
    if |events| == 0 then (s, false)
    else
      var (s1, quit) := Step(s, events[0], filenames[0]);
      if quit then (s1, true)
      else
        assert forall i :: 0 <= i < |events| - 1 ==> events[1..][i] == events[i + 1];
        Run(s1, events[1..], filenames[1..])
  }

  /** The `finally` of `main`: an open recording is closed, then the drone is told to quit. */
  function Shutdown(s: State): (t: State)
    ensures t.recording.None?
    ensures t.sent == s.sent + [Quit]
    ensures s.recording.Some? ==> t.status == s.status + [VideoSaved(s.recording.value)]
    ensures s.recording.None? ==> t.status == s.status
    ensures t.(recording := s.recording, status := s.status, sent := s.sent) == s
  {
    // the file name is unused when a recording is being closed
    var s1 := if s.recording.Some? then ToggleRecording(s, 1, "") else s;
    Send(s1, Quit)
  }

  // ---------------------------------------------------------------------------
  // videoFrameHandler

  /**
   * A video frame: a missing player is started, then the frame is written to
   * the player and, when a recording is open, to the recorder. A failed write
   * is reported and drops that sink only. `playerWritten` and
   * `recorderWritten` say whether each write succeeded.
   */
  function VideoFrame(s: State, playerWritten: bool, recorderWritten: bool,
                      playerError: string, recorderError: string): (t: State)
    ensures t.player == playerWritten
    ensures t.recording == (if recorderWritten then s.recording else None)
    ensures t.status == s.status + (if playerWritten then [] else [WriteFailed(playerError)])
                                 + (if s.recording.Some? && !recorderWritten then [WriteFailed(recorderError)] else [])
    ensures t.(player := s.player, recording := s.recording, status := s.status) == s
  {
    var s1 := s.(player := true);
    var s2 := if playerWritten then s1 else s1.(status := s1.status + [WriteFailed(playerError)], player := false);
    if s2.recording.Some? && !recorderWritten then
      s2.(status := s2.status + [WriteFailed(recorderError)], recording := None)
    else
      s2
  }
}

/** Properties of the session model that relate several handlers or events. */
module PilotProperties {
  import opened Drone
  import X = JoystickX360
  import K = Keyboard
  import Smoother
  import opened Pilot

  // ---------------------------------------------------------------------------
  // Joystick

  /** A centred trigger feeds 0.0 to the throttle smoother and stops the vertical motion. */
  lemma CentredTriggerStopsClimb(s: State)
    ensures Input(s, AxisMotion(X.LeftY, 0.0)).sent
            == s.sent + [Set(Throttle, Smoother.Update(s.throttle, 0.0, Smoother.MaxDelta)), Move(Up, 0)]
  {
    AxisFollowsBinding(s, X.LeftY, 0.0);
  }

  /** A movement button sends its motion at the joystick speed on press and at 0 on release. */
  lemma MovementButtonPressRelease(s: State, b: int)
    requires X.ButtonMotion(b).Some?
    ensures var m := X.ButtonMotion(b).value;
            && Input(s, ButtonDown(b)).sent == s.sent + [Move(m, X.JoystickSpeed)]
            && Input(Input(s, ButtonDown(b)), ButtonUp(b)).sent == s.sent + [Move(m, X.JoystickSpeed), Move(m, 0)]
  {
  }

  /** Takeoff fires on release only, land on press only. */
  lemma TakeoffOnReleaseLandOnPress(s: State)
    ensures Input(s, ButtonDown(X.Takeoff)) == s
    ensures Input(s, ButtonUp(X.Takeoff)) == Send(s, Takeoff)
    ensures Input(s, ButtonDown(X.Land)) == Send(s, Land)
    ensures Input(s, ButtonUp(X.Land)) == s
  {
  }

  // ---------------------------------------------------------------------------
  // Keyboard

  /** A key bound to an action name sends it at the keyboard speed on KEYDOWN and at 0 on KEYUP. */
  lemma ActionKeyPressRelease(s: State, key: string, filename: string)
    requires key in K.Controls && K.Controls[key].Action?
    ensures Step(s, KeyDown(key), filename) == (Send(s, Move(K.Controls[key].motion, K.KeyboardSpeed)), false)
    ensures Step(s, KeyUp(key), filename) == (Send(s, Move(K.Controls[key].motion, 0)), false)
  {
    K.QuitKeyIsUnbound();
  }

  /** The arrow keys send their motion at twice the keyboard speed, and at 0 on release. */
  lemma ArrowKeyPressRelease(s: State, key: string, filename: string)
    requires key in K.Controls && K.Controls[key].Handler? && K.Controls[key].handler.Fast?
    ensures Step(s, KeyDown(key), filename).0 == Send(s, Move(K.Controls[key].handler.motion, 2 * K.KeyboardSpeed))
    ensures Step(s, KeyUp(key), filename).0 == Send(s, Move(K.Controls[key].handler.motion, 0))
  {
    K.QuitKeyIsUnbound();
  }

  /** `p`, `r`, `z`, `enter` and `return` do nothing on KEYUP. */
  lemma GatedKeysIgnoreRelease(s: State, key: string, filename: string)
    requires key in K.Controls && K.Controls[key].Handler? && K.Gated(K.Controls[key].handler)
    ensures Step(s, KeyUp(key), filename) == (s, false)
  {
  }

  /** `tab`, `backspace` and `0` to `5` send the same one command on KEYDOWN and again on KEYUP. */
  lemma UngatedKeysFireTwice(s: State, key: string, filename: string)
    requires key in K.Controls && K.Controls[key].Handler?
    requires var h := K.Controls[key].handler; h.TakeoffKey? || h.LandKey? || h.EncoderRate?
    ensures Step(s, KeyDown(key), filename).0 == Step(s, KeyUp(key), filename).0
    ensures var t := Step(s, KeyUp(key), filename).0;
            OnlyLog(s, t) && |t.sent| == |s.sent| + 1 && t.sent[..|s.sent|] == s.sent
  {
    K.QuitKeyIsUnbound();
  }

  /** Keys outside the table, other than the quit key, do nothing. */
  lemma UnboundKeysDoNothing(s: State, key: string, filename: string)
    requires key !in K.Controls && key != K.QuitKey
    ensures Step(s, KeyDown(key), filename) == (s, false)
    ensures Step(s, KeyUp(key), filename) == (s, false)
  {
  }

  /** Two `r` presses open a recording on the first file name and report that same file as saved. */
  lemma RecordTwice(s: State, speed: int, first: string, second: string)
    requires s.recording.None? && speed != 0
    ensures var t := ToggleRecording(ToggleRecording(s, speed, first), speed, second);
            && t.recording.None?
            && t.status == s.status + [RecordingTo(first), VideoSaved(first)]
            && t.(status := s.status) == s
  {
  }

  /** Two zoom toggles restore the mode, telling the drone each new mode in turn. */
  lemma ZoomTwice(s: State, speed: int)
    requires speed != 0
    ensures var t := ToggleZoom(ToggleZoom(s, speed), speed);
            t.zoom == s.zoom && t.sent == s.sent + [SetVideoMode(!s.zoom), SetVideoMode(s.zoom)]
  {
  }

  /** `take_picture` and `palm_land` do nothing at speed 0 and send their one command otherwise. */
  lemma PictureAndPalmLandGated(s: State, speed: int)
    ensures speed == 0 ==> Pilot.TakePicture(s, speed) == s && Pilot.PalmLand(s, speed) == s
    ensures speed != 0 ==> Pilot.TakePicture(s, speed) == Send(s, Command.TakePicture)
    ensures speed != 0 ==> Pilot.PalmLand(s, speed) == Send(s, Command.PalmLand)
  {
  }

  /** `r` at the keyboard speed toggles the recording. */
  lemma RecordKeyOnPress(s: State, filename: string)
    ensures Step(s, KeyDown("r"), filename) == (ToggleRecording(s, K.KeyboardSpeed, filename), false)
  {
    K.GatedEntries();
  }

  /** `z` at the keyboard speed toggles the zoom. */
  lemma ZoomKeyOnPress(s: State, filename: string)
    ensures Step(s, KeyDown("z"), filename) == (ToggleZoom(s, K.KeyboardSpeed), false)
  {
    K.GatedEntries();
  }

  /** `enter` and `return` at the keyboard speed take a picture, and `p` palm-lands. */
  lemma PictureAndPalmLandKeysOnPress(s: State, filename: string)
    ensures Step(s, KeyDown("enter"), filename) == (Send(s, Command.TakePicture), false)
    ensures Step(s, KeyDown("return"), filename) == (Send(s, Command.TakePicture), false)
    ensures Step(s, KeyDown("p"), filename) == (Send(s, Command.PalmLand), false)
  {
    K.GatedEntries();
  }

  // ---------------------------------------------------------------------------
  // The loop

  lemma HasQuitTail(events: seq<Event>)
    requires |events| > 0 && HasQuit(events[1..])
    ensures HasQuit(events)
  {
    var j :| 0 <= j < |events| - 1 && events[1..][j] == KeyDown(K.QuitKey);
    assert events[j + 1] == KeyDown(K.QuitKey);
  }

  /**
   * The first quit key pressed ends the cycle: the events before it are
   * processed, the drone is told to quit, and nothing after it is processed.
   */
  lemma {:induction false} RunStopsAtQuit(s: State, events: seq<Event>, filenames: seq<string>, i: nat)
    requires |filenames| == |events|
    requires i < |events| && events[i] == KeyDown(K.QuitKey)
    requires !HasQuit(events[..i])
    ensures Run(s, events, filenames) == (Send(Run(s, events[..i], filenames[..i]).0, Quit), true)
    decreases i
  {
    if i > 0 {
      assert events[..i][0] == events[0];
      assert events[0] != KeyDown(K.QuitKey);
      var s1 := Step(s, events[0], filenames[0]).0;
      assert events[1..][..i - 1] == events[..i][1..];
      assert filenames[1..][..i - 1] == filenames[..i][1..];
      if HasQuit(events[..i][1..]) {
        HasQuitTail(events[..i]);
      }
      RunStopsAtQuit(s1, events[1..], filenames[1..], i - 1);
    }
  }

  /** Draining two queues one after the other is draining their concatenation, when no quit ended the first. */
  lemma {:induction false} RunConcat(s: State, a: seq<Event>, fa: seq<string>, b: seq<Event>, fb: seq<string>)
    requires |fa| == |a| && |fb| == |b|
    requires !HasQuit(a)
    ensures Run(s, a + b, fa + fb) == Run(Run(s, a, fa).0, b, fb)
    decreases |a|
  {
    if |a| == 0 {
      assert a + b == b && fa + fb == fb;
    } else {
      assert (a + b)[0] == a[0] && (fa + fb)[0] == fa[0];
      assert (a + b)[1..] == a[1..] + b && (fa + fb)[1..] == fa[1..] + fb;
      if HasQuit(a[1..]) {
        HasQuitTail(a);
      }
      assert a[0] != KeyDown(K.QuitKey);
      RunConcat(Step(s, a[0], fa[0]).0, a[1..], fa[1..], b, fb);
    }
  }

  /**
   * Quitting with the quit key, then the `finally` of `main`: the recording
   * is closed and its file reported, and the drone is told to quit twice,
   * once by the quit key and once by the shutdown, with nothing in between.
   */
  lemma {:induction false} QuitThenShutdown(s: State, events: seq<Event>, filenames: seq<string>, i: nat)
    requires |filenames| == |events|
    requires i < |events| && events[i] == KeyDown(K.QuitKey)
    requires !HasQuit(events[..i])
    ensures var before := Run(s, events[..i], filenames[..i]).0;
            var t := Shutdown(Run(s, events, filenames).0);
            && t.recording.None?
            && t.sent == before.sent + [Quit, Quit]
            && (before.recording.Some? ==> t.status == before.status + [VideoSaved(before.recording.value)])
            && (before.recording.None? ==> t.status == before.status)
  {
    RunStopsAtQuit(s, events, filenames, i);
  }
}

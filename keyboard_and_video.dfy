/**
 * The control session of the keyboard-and-video example: the module globals
 * (`throttle`, `yaw`, `pitch`, `roll`, `video_recorder`, `video_player`,
 * `prev_flight_data`, the `hud` list) become fields of one object, and the
 * drone becomes its command log and its zoom flag. Every method is proved to
 * leave the state that the matching function of `Pilot` computes, and the
 * overlay methods are proved against the functions of `Hud`.
 */
module KeyboardAndVideo {
  import opened Wrappers
  import opened Drone
  import X = JoystickX360
  import K = Keyboard
  import Smoother
  import opened Hud
  import P = Pilot
  import PilotProperties

  /** Every event of every cycle, in order. */
  function Flatten<T>(cycles: seq<seq<T>>): seq<T>
  {
    if |cycles| == 0 then [] else cycles[0] + Flatten(cycles[1..])
  }

  class Session {
    var throttle: real
    var yaw: real
    var pitch: real
    var roll: real
    var recording: Option<string>
    var zoom: bool
    var player: bool
    var prevFlightData: Option<string>
    var sent: seq<Command>
    var status: seq<Status>
    var screen: seq<Frame>
    const hud: seq<FlightDataDisplay>
    const font: Font

    /** The session as a value. */
    ghost function Model(): P.State
      reads this
    {
      P.State(throttle, yaw, pitch, roll, recording, zoom, player, prevFlightData, sent, status, screen)
    }

    /** The overlay elements are distinct objects. */
    ghost predicate Valid()
    {
      forall i, j :: 0 <= i < j < |hud| ==> hud[i] != hud[j]
    }

    /** The surfaces the overlay elements hold, top to bottom. */
    ghost function Surfaces(): (r: seq<Option<Glyph>>)
      reads hud
      ensures |r| == |hud| && forall k :: 0 <= k < |hud| ==> r[k] == hud[k].surface
    {
      seq(|hud|, k requires 0 <= k < |hud| reads hud => hud[k].surface)
    }

    /** The globals at import time, the six overlay elements of `hud`, and the font `main` loads. */
    constructor (zoom: bool, font: Font)
      ensures Valid() && Model() == P.Initial(zoom) && this.font == font
      ensures |hud| == |Lines|
      ensures forall k :: 0 <= k < |hud| ==>
                && fresh(hud[k]) && (hud[k].source, hud[k].format, hud[k].colour) == Lines[k]
                && hud[k].value == Null && hud[k].surface == None
    {
      var alt := new FlightDataDisplay(Field(Height), "ALT %3d", White);
      var spd := new FlightDataDisplay(Field(GroundSpeed), "SPD %3d", White);
      var bat := new FlightDataDisplay(Field(BatteryPercentage), "BAT %3d%%", White);
      var net := new FlightDataDisplay(Field(WifiStrength), "NET %3d%%", White);
      var cam := new FlightDataDisplay(CameraMode, "CAM %s", White);
      var rec := new FlightDataDisplay(RecordingIndicator, "%s", Red);
      hud := [alt, spd, bat, net, cam, rec];
      this.font := font;
      throttle, yaw, pitch, roll := 0.0, 0.0, 0.0, 0.0;
      recording := None;
      this.zoom := zoom;
      player := false;
      prevFlightData := None;
      sent, status, screen := [], [], [];
    }

    /** `handle_input_event`: the branch for the event's type. */
    method HandleInputEvent(e: P.Event)
      modifies this
      ensures Model() == P.Input(old(Model()), e)
    {
      match e
      case AxisMotion(axis, value) => HandleAxis(axis, value);
      case HatMotion(x, y) => HandleHat(x, y);
      case ButtonDown(b) => HandleButtonDown(b);
      case ButtonUp(b) => HandleButtonUp(b);
      case _ =>
    }

    /** The `JOYAXISMOTION` branch of `handle_input_event`. */
    method HandleAxis(axis: int, value: real)
      modifies this
      ensures Model() == P.Axis(old(Model()), axis, value)
    {
      var v := value;
      var zeroed := false;
      // ignore small input values (deadzone)
      if -X.Deadzone <= v && v <= X.Deadzone {
        v := 0.0;
        zeroed := true;
      }
      ghost var s0 := Model();
      if axis == X.LeftY {
        throttle := Smoother.Update(throttle, v * X.LeftYReverse, Smoother.MaxDelta);
        sent := sent + [Set(Throttle, throttle)];
        if zeroed { sent := sent + [Move(Up, 0)]; }
      }
      ghost var s1 := Model();
      assert s1 == if axis == X.LeftY
        then P.Drive(s0, Throttle, Smoother.Update(s0.throttle, v * X.LeftYReverse, Smoother.MaxDelta), zeroed, Up)
        else s0;
      if axis == X.LeftX {
        yaw := Smoother.Update(yaw, v * X.LeftXReverse, Smoother.MaxDelta);
        sent := sent + [Set(Yaw, yaw)];
        if zeroed { sent := sent + [Move(Clockwise, 0)]; }
      }
      ghost var s2 := Model();
      assert s2 == if axis == X.LeftX
        then P.Drive(s1, Yaw, Smoother.Update(s1.yaw, v * X.LeftXReverse, Smoother.MaxDelta), zeroed, Clockwise)
        else s1;
      if axis == X.RightY {
        pitch := Smoother.Update(pitch, v * X.RightYReverse, Smoother.MaxDelta);
        sent := sent + [Set(Pitch, pitch)];
        if zeroed { sent := sent + [Move(Forward, 0)]; }
      }
      ghost var s3 := Model();
      assert s3 == if axis == X.RightY
        then P.Drive(s2, Pitch, Smoother.Update(s2.pitch, v * X.RightYReverse, Smoother.MaxDelta), zeroed, Forward)
        else s2;
      if axis == X.RightX {
        roll := Smoother.Update(roll, v * X.RightXReverse, Smoother.MaxDelta);
        sent := sent + [Set(Roll, roll)];
        if zeroed { sent := sent + [Move(Left, 0)]; }
      }
    }

    /** The `JOYHATMOTION` branch of `handle_input_event`. */
    method HandleHat(x: int, y: int)
      modifies this
      ensures Model() == P.Hat(old(Model()), x, y, X.JoystickSpeed)
    {
      if x < 0 { sent := sent + [Move(CounterClockwise, X.JoystickSpeed)]; }
      if x == 0 { sent := sent + [Move(Clockwise, 0)]; }
      if x > 0 { sent := sent + [Move(Clockwise, X.JoystickSpeed)]; }
      if y < 0 { sent := sent + [Move(Down, X.JoystickSpeed)]; }
      if y == 0 { sent := sent + [Move(Up, 0)]; }
      if y > 0 { sent := sent + [Move(Up, X.JoystickSpeed)]; }
    }

    /** The `JOYBUTTONDOWN` branch of `handle_input_event`. */
    method HandleButtonDown(b: int)
      modifies this
      ensures Model() == P.ButtonPress(old(Model()), b, X.JoystickSpeed)
    {
      if b == X.Land { sent := sent + [Land]; }
      else if b == X.Up { sent := sent + [Move(Up, X.JoystickSpeed)]; }
      else if b == X.Down { sent := sent + [Move(Down, X.JoystickSpeed)]; }
      else if b == X.RotateRight { sent := sent + [Move(Clockwise, X.JoystickSpeed)]; }
      else if b == X.RotateLeft { sent := sent + [Move(CounterClockwise, X.JoystickSpeed)]; }
      else if b == X.Forward { sent := sent + [Move(Forward, X.JoystickSpeed)]; }
      else if b == X.Backward { sent := sent + [Move(Backward, X.JoystickSpeed)]; }
      else if b == X.Right { sent := sent + [Move(Right, X.JoystickSpeed)]; }
      else if b == X.Left { sent := sent + [Move(Left, X.JoystickSpeed)]; }
    }

    /** The `JOYBUTTONUP` branch of `handle_input_event`. */
    method HandleButtonUp(b: int)
      modifies this
      ensures Model() == P.ButtonRelease(old(Model()), b)
    {
      if b == X.Takeoff { sent := sent + [Takeoff]; }
      else if b == X.Up { sent := sent + [Move(Up, 0)]; }
      else if b == X.Down { sent := sent + [Move(Down, 0)]; }
      else if b == X.RotateRight { sent := sent + [Move(Clockwise, 0)]; }
      else if b == X.RotateLeft { sent := sent + [Move(CounterClockwise, 0)]; }
      else if b == X.Forward { sent := sent + [Move(Forward, 0)]; }
      else if b == X.Backward { sent := sent + [Move(Backward, 0)]; }
      else if b == X.Right { sent := sent + [Move(Right, 0)]; }
      else if b == X.Left { sent := sent + [Move(Left, 0)]; }
    }

    /** `toggle_recording(drone, speed)`; `filename` is the timestamped name a new recording gets. */
    method ToggleRecording(speed: int, filename: string)
      modifies this
      ensures Model() == P.ToggleRecording(old(Model()), speed, filename)
    {
      if speed == 0 {
        return;
      }
      if recording.Some? {
        // already recording, so stop
        status := status + [VideoSaved(recording.value)];
        recording := None;
        return;
      }
      // start a new recording
      recording := Some(filename);
      status := status + [RecordingTo(filename)];
    }

    /** `take_picture(drone, speed)`. */
    method TakePicture(speed: int)
      modifies this
      ensures Model() == P.TakePicture(old(Model()), speed)
    {
      if speed == 0 {
        return;
      }
      sent := sent + [Command.TakePicture];
    }

    /** `palm_land(drone, speed)`. */
    method PalmLand(speed: int)
      modifies this
      ensures Model() == P.PalmLand(old(Model()), speed)
    {
      if speed == 0 {
        return;
      }
      sent := sent + [Command.PalmLand];
    }

    /** `toggle_zoom(drone, speed)`. */
    method ToggleZoom(speed: int)
      modifies this
      ensures Model() == P.ToggleZoom(old(Model()), speed)
    {
      if speed == 0 {
        return;
      }
      sent := sent + [SetVideoMode(!zoom)];
      zoom := !zoom;
      screen := screen + [Blank];
    }

    /** A handler entry of `controls` called as `key_handler(drone, speed)`. */
    method CallHandler(h: K.Handler, speed: int, filename: string)
      modifies this
      ensures Model() == P.RunHandler(old(Model()), h, speed, filename)
    {
      match h
      case Fast(m) => sent := sent + [Move(m, speed * 2)];
      case TakeoffKey => sent := sent + [Takeoff];
      case LandKey => sent := sent + [Land];
      case PalmLandKey => PalmLand(speed);
      case RecordKey => ToggleRecording(speed, filename);
      case ZoomKey => ToggleZoom(speed);
      case PictureKey => TakePicture(speed);
      case EncoderRate(rate) => sent := sent + [SetVideoEncoderRate(rate)];
    }

    /** The `controls` lookup of the key loop: an action name gets `speed`, a handler is called with it. */
    method HandleKey(key: string, speed: int, filename: string)
      modifies this
      ensures Model() == P.Key(old(Model()), key, speed, filename)
    {
      if key in K.Controls {
        match K.Controls[key]
        case Action(m) => sent := sent + [Move(m, speed)];
        case Handler(h) => CallHandler(h, speed, filename);
      }
    }

    /** The body of the `for e in pygame.event.get()` loop; `quit` is the quit key's `exit`. */
    method HandleEvent(e: P.Event, filename: string) returns (quit: bool)
      modifies this
      ensures (Model(), quit) == P.Step(old(Model()), e, filename)
    {
      HandleInputEvent(e);
      quit := false;
      match e
      case KeyDown(key) =>
        if key == K.QuitKey {
          sent := sent + [Quit];
          quit := true;
          return;
        }
        HandleKey(key, K.KeyboardSpeed, filename);
      case KeyUp(key) =>
        HandleKey(key, 0, filename);
      case _ =>
    }

    /** One drained event queue, handled in arrival order until the quit key. */
    method RunCycle(events: seq<P.Event>, filenames: seq<string>) returns (quit: bool)
      requires |filenames| == |events|
      modifies this
      ensures (Model(), quit) == P.Run(old(Model()), events, filenames)
    {
      quit := false;
      var i := 0;
      while i < |events| && !quit
        invariant 0 <= i <= |events|
        invariant quit ==> (Model(), true) == P.Run(old(Model()), events, filenames)
        invariant !quit ==> P.Run(old(Model()), events, filenames) == P.Run(Model(), events[i..], filenames[i..])
        decreases |events| - i
      {
        assert events[i..][1..] == events[i + 1..] && filenames[i..][1..] == filenames[i + 1..];
        quit := HandleEvent(events[i], filenames[i]);
        i := i + 1;
      }
    }

    /** The `finally` of `main`: close an open recording with `toggle_recording(drone, 1)`, then quit. */
    method Shutdown()
      modifies this
      ensures Model() == P.Shutdown(old(Model()))
    {
      if recording.Some? {
        ToggleRecording(1, "");  // a closing toggle does not use the file name
      }
      sent := sent + [Quit];
    }

    /**
     * The `try`/`finally` of `main` over the given cycles: each drained queue
     * is handled until the quit key, and the session is shut down when the
     * loop ends, by the quit key or after the last cycle.
     */
    method Operate(cycles: seq<seq<P.Event>>, filenames: seq<seq<string>>)
      requires |filenames| == |cycles| && forall i :: 0 <= i < |cycles| ==> |filenames[i]| == |cycles[i]|
      modifies this
      ensures |Flatten(filenames)| == |Flatten(cycles)|
      ensures Model() == P.Shutdown(P.Run(old(Model()), Flatten(cycles), Flatten(filenames)).0)
    {
      FlattenLengths(cycles, filenames);
      assert cycles[0..] == cycles && filenames[0..] == filenames;
      var quit := false;
      var i := 0;
      while i < |cycles| && !quit
        invariant 0 <= i <= |cycles|
        invariant |Flatten(filenames[i..])| == |Flatten(cycles[i..])|
        invariant quit ==> Model() == P.Run(old(Model()), Flatten(cycles), Flatten(filenames)).0
        invariant !quit ==> P.Run(old(Model()), Flatten(cycles), Flatten(filenames)).0
                            == P.Run(Model(), Flatten(cycles[i..]), Flatten(filenames[i..])).0
        decreases |cycles| - i
      {
        FlattenLengths(cycles[i + 1..], filenames[i + 1..]);
        assert cycles[i..][1..] == cycles[i + 1..] && filenames[i..][1..] == filenames[i + 1..];
        assert Flatten(cycles[i..]) == cycles[i] + Flatten(cycles[i + 1..]);
        assert Flatten(filenames[i..]) == filenames[i] + Flatten(filenames[i + 1..]);
        ghost var before := Model();
        quit := RunCycle(cycles[i], filenames[i]);
        if quit {
          RunQuitPrefix(before, cycles[i], filenames[i], Flatten(cycles[i + 1..]), Flatten(filenames[i + 1..]));
        } else {
          PilotProperties.RunConcat(before, cycles[i], filenames[i], Flatten(cycles[i + 1..]), Flatten(filenames[i + 1..]));
        }
        i := i + 1;
      }
      Shutdown();
    }

    /** `videoFrameHandler`; the two flags say whether the write to each sink succeeded. */
    method VideoFrame(playerWritten: bool, recorderWritten: bool, playerError: string, recorderError: string)
      modifies this
      ensures Model() == P.VideoFrame(old(Model()), playerWritten, recorderWritten, playerError, recorderError)
    {
      if !player {
        player := true;  // start mplayer
      }
      if !playerWritten {
        status := status + [WriteFailed(playerError)];
        player := false;
      }
      if recording.Some? && !recorderWritten {
        status := status + [WriteFailed(recorderError)];
        recording := None;
      }
    }

    /**
     * The loop of `update_hud`: refresh every element in turn and stack the
     * surfaces that are there, keeping the running height.
     */
    method RefreshAll(data: Snapshot) returns (blits: seq<Blit>, h: nat)
      requires Valid()
      modifies hud
      ensures forall k :: 0 <= k < |hud| ==> Refreshed(hud[k], data, zoom, recording.Some?, font)
      ensures blits == Layout(Surfaces()) && h == StackHeight(Surfaces())
    {
      h := 0;
      blits := [];
      ghost var surfaces: seq<Option<Glyph>> := [];
      var i := 0;
      while i < |hud|
        invariant 0 <= i <= |hud|
        modifies hud
        invariant |surfaces| == i && forall k :: 0 <= k < i ==> surfaces[k] == hud[k].surface
        invariant blits == Layout(surfaces) && h == StackHeight(surfaces)
        invariant forall k :: 0 <= k < i ==> Refreshed(hud[k], data, zoom, recording.Some?, font)
        invariant forall k :: i <= k < |hud| ==> unchanged(hud[k])
      {
        assert forall k :: 0 <= k < |hud| && k != i ==> hud[k] != hud[i];
        var surface := hud[i].Update(data, zoom, recording.Some?, font);
        LayoutSnoc(surfaces, surface);
        if surface.Some? {
          blits := blits + [Blit(surface.value, 0, h)];
          h := h + surface.value.height;
        }
        surfaces := surfaces + [surface];
        i := i + 1;
      }
      assert surfaces == Surfaces();
    }

    /**
     * `update_hud`: every element is refreshed, the surfaces that are there
     * are stacked into a 158-wide overlay with 64 of padding, and the overlay
     * is drawn.
     */
    method UpdateHud(data: Snapshot) returns (overlay: Frame)
      requires Valid()
      modifies this, hud
      ensures forall k :: 0 <= k < |hud| ==> Refreshed(hud[k], data, zoom, recording.Some?, font)
      ensures overlay == Compose(Surfaces())
      ensures Model() == old(Model()).(screen := old(screen) + [overlay])
    {
      var blits, h := RefreshAll(data);
      ghost var surfaces := Surfaces();
      overlay := Overlay(PanelWidth, h + Padding, blits);
      assert overlay == Compose(surfaces);
      screen := screen + [overlay];
      assert Surfaces() == surfaces;
    }

    /** `flightDataHandler`: redraw the overlay only when the snapshot's printout changed, then remember it. */
    method FlightData(data: Snapshot)
      requires Valid()
      modifies this, hud
      ensures prevFlightData == Some(data.text)
      ensures old(prevFlightData) == Some(data.text) ==>
                unchanged(this) && forall k :: 0 <= k < |hud| ==> unchanged(hud[k])
      ensures old(prevFlightData) != Some(data.text) ==>
                && (forall k :: 0 <= k < |hud| ==> Refreshed(hud[k], data, zoom, recording.Some?, font))
                && Model() == old(Model()).(prevFlightData := Some(data.text),
                                            screen := old(screen) + [Compose(Surfaces())])
    {
      var text := data.text;
      if prevFlightData != Some(text) {
        var _ := UpdateHud(data);
        prevFlightData := Some(text);
      }
    }
  }

  lemma {:induction false} FlattenLengths<T, U>(a: seq<seq<T>>, b: seq<seq<U>>)
    requires |a| == |b| && forall i :: 0 <= i < |a| ==> |a[i]| == |b[i]|
    ensures |Flatten(a)| == |Flatten(b)|
  {
    if |a| > 0 {
      FlattenLengths(a[1..], b[1..]);
    }
  }

  /** Once a queue holds the quit key, what follows it is never processed. */
  lemma {:induction false} RunQuitPrefix(s: P.State, a: seq<P.Event>, fa: seq<string>, b: seq<P.Event>, fb: seq<string>)
    requires |fa| == |a| && |fb| == |b|
    requires P.HasQuit(a)
    ensures P.Run(s, a + b, fa + fb) == P.Run(s, a, fa)
    decreases |a|
  {
    assert (a + b)[0] == a[0] && (fa + fb)[0] == fa[0];
    var (s1, quit) := P.Step(s, a[0], fa[0]);
    if !quit {
      assert (a + b)[1..] == a[1..] + b && (fa + fb)[1..] == fa[1..] + fb;
      var j :| 0 <= j < |a| && a[j] == P.KeyDown(K.QuitKey);
      assert j > 0 && a[1..][j - 1] == a[j];
      RunQuitPrefix(s1, a[1..], fa[1..], b, fb);
    }
  }
}

# Keyboard-and-video pilot: a Dafny model

This project models the control core of the tellopy example
`tellopy/examples/keyboard_and_video.py`. The example flies a Tello drone
from an Xbox 360 pad and the keyboard and shows telemetry beside the video.
The model covers:

- the axis smoother `update`;
- the joystick dispatcher `handle_input_event` with the `JoystickX360`
  binding table;
- the key table `controls` and its handlers `toggle_recording`,
  `take_picture`, `palm_land` and `toggle_zoom`;
- the event loop of `main`, with `escape` as the quit key, and the
  shutdown in its `finally`;
- the telemetry overlay: `FlightDataDisplay.update`, `flight_data_mode`,
  `flight_data_recording`, `update_hud` and `flightDataHandler`;
- the sink faults of `videoFrameHandler`.

The drone is modelled as an append-only log of the calls made on it
(`Drone.Command`). `status_print` is a log of status messages
(`Drone.Status`). What is drawn on the display is a log of frames
(`Hud.Frame`).

Modules, one per part of the program:

- `Smoother`: `update` over the reals, and its convergence.
- `JoystickX360`: the button and axis numbers, the reverse factors, the
  deadzone, and the joystick speed 100 (the module-level `speed`).
- `Keyboard`: the `controls` table as a map from key names to either an
  action name or a handler kind, and the keyboard speed 30 (the local
  `speed` of `main`).
- `Drone`: the commands the example sends and the status messages it shows.
- `Hud`: the overlay. A rendered surface is an abstract `Glyph` that keeps
  its height. The class `FlightDataDisplay` keeps the cached value and
  surface as fields, as the source does. Its `Update` is proved against the
  pure function `Refresh`; `Layout`, `StackHeight` and `Compose` specify the
  loop and the overlay of `update_hud` (`Session.RefreshAll` and
  `Session.UpdateHud`).
- `Pilot`: the session as a value (`State`), with one function per handler.
  It also has `Step` for one event of the loop, `Run` for one drained event
  queue, and `Shutdown` for the `finally`.
- `PilotProperties`: lemmas that relate several handlers or events.
- `KeyboardAndVideo`: the class `Session`. Its fields are the module globals of
  the example (`throttle`, `yaw`, `pitch`, `roll`, `video_recorder`,
  `video_player`, `prev_flight_data`, the `hud` list), plus the drone's
  zoom flag. Its methods follow the Python statements. Each method is proved
  to leave the state that the matching `Pilot` function computes, or, for
  the overlay, the state the `Hud` functions describe.

Behaviour of the code that is easy to misread, and which the model follows:

- The quit key first calls `drone.quit()` (lines 444-446). `exit(0)` then
  raises `SystemExit`, and the `finally` closes an open recording and calls
  `drone.quit()` again (lines 465-470). So the drone is told to quit twice,
  and the recording is closed only after the first quit. The lemma
  `PilotProperties.QuitThenShutdown` states this.
- The toggles return only when `speed == 0`, so a negative speed toggles too.
  The model gates on `speed != 0`, not on a positive speed.
- A failed write to the recorder (lines 363-368) clears `video_recorder`.
  No "Video saved" status is reported then, only the error text.
- A failure of `Popen` is not caught by the source, so the model does not
  force the recording back to idle for it; see "Left out".
- `flightDataHandler` compares the printout `str(data)`, not the telemetry
  values. `Hud.Snapshot.text` stands for that printout.
- `set_video_mode(z)` belongs to the tellopy library, which is not part of
  this model. It is taken to set `drone.zoom` to `z`, which is how
  `toggle_zoom` reads it on the next call.

File names are parameters. `Pilot.Run` takes one recording name per event,
the one `datetime.now()` would give while that event is handled.
`KeyboardAndVideo.Session.Operate` takes one such sequence per cycle of the
loop.

## Model

| member | source | states |
|---|---|---|
| Smoother.Update | tellopy/examples/keyboard_and_video.py:100-108 | the result lies between `old` and `new`; it is `new` exactly when `abs(old - new) <= max_delta`; otherwise it is exactly `max_delta` closer to `new`; the step never exceeds `max_delta` |
| Smoother.UpdateStaysInUnitRange | tellopy/examples/keyboard_and_video.py:100-108 | a previous value and a target in [-1, 1] give a result in [-1, 1] |
| Smoother.Converges | tellopy/examples/keyboard_and_video.py:100-108 | a target held for `n` events is reached once `n * max_delta` covers the distance to it |
| JoystickX360.ButtonMotion | tellopy/examples/keyboard_and_video.py:156-197 | the eight movement buttons of the press and release chains have a motion, and the takeoff and land buttons have none; `Pilot.ButtonPress` and `Pilot.ButtonRelease` state what each motion sends |
| JoystickX360.AxisBinding | tellopy/examples/keyboard_and_video.py:67-78 | each of the four bound axes drives one channel with a reverse factor of 1 or -1 |
| Keyboard.GatedEntries | tellopy/examples/keyboard_and_video.py:266-270 | `p`, `r`, `z`, `enter` and `return` are bound to `palm_land`, `toggle_recording`, `toggle_zoom` and `take_picture` |
| Keyboard.Controls | tellopy/examples/keyboard_and_video.py:249-279 | one entry per entry of `controls`, key by key: the nine action names, the four arrow lambdas at twice the speed, the takeoff and land lambdas, the four gated handlers, and the six encoder-rate lambdas |
| Keyboard.QuitKeyIsUnbound | tellopy/examples/keyboard_and_video.py:249-279 | `escape` is not a key of `controls`, so the quit test never shadows a table entry |
| Drone.Caption | tellopy/examples/keyboard_and_video.py:199-368 | the recording captions end with the file name; a write failure shows the error text itself |
| Hud.FlightDataMode | tellopy/examples/keyboard_and_video.py:305-306 | the camera label is "VID" exactly when zoomed, and "PIC" exactly when not |
| Hud.FlightDataRecording | tellopy/examples/keyboard_and_video.py:308-309 | the indicator is non-empty exactly while a recording is open, and then reads "REC 00:00" |
| Hud.Lookup | tellopy/examples/keyboard_and_video.py:332-339 | every element shows a value: the `height`, `ground_speed`, `battery_percentage` and `wifi_strength` lines show exactly that attribute of the snapshot; the two derived lines are the camera label and the recording indicator |
| Hud.OnlyChangedMetricRerenders | tellopy/examples/keyboard_and_video.py:296-303 | when two snapshots differ in at most one metric, every other line reads the same value from both, so its refresh keeps the cached value and glyph |
| Hud.Lines | tellopy/examples/keyboard_and_video.py:332-339 | one entry per element of the `hud` list, in order, each with the list's key or callback, format and colour |
| Hud.Refresh | tellopy/examples/keyboard_and_video.py:298-303 | the new value is remembered; a changed value gives a freshly rendered glyph; an unchanged value keeps the cached surface; a surface, once rendered, never goes back to `None` |
| Hud.RefreshIdempotent | tellopy/examples/keyboard_and_video.py:298-303 | refreshing again with the same value changes nothing |
| Hud.Present | tellopy/examples/keyboard_and_video.py:314-318 | skipping `None` surfaces: the glyphs kept are exactly those of the surfaces that are there; there are at most as many as elements, and as many when every surface is there |
| Hud.Layout | tellopy/examples/keyboard_and_video.py:314-320 | one blit per surface that is there |
| Hud.LayoutSnoc | tellopy/examples/keyboard_and_video.py:314-320 | one more surface adds its blit at the running height, and the height grows by the glyph's height |
| Hud.LayoutStacks | tellopy/examples/keyboard_and_video.py:311-321 | each blit is at x 0 and at a y equal to the sum of the heights of the glyphs above it; the running height is the total of the heights |
| Hud.ComposeStacks | tellopy/examples/keyboard_and_video.py:311-325 | the overlay is 158 wide, its height is the sum of the glyph heights plus 64, and it holds each present glyph at its stacked offset |
| Hud.Compose | tellopy/examples/keyboard_and_video.py:321-325 | the overlay of the stacked surfaces; its width, height and blit offsets are stated by `Hud.ComposeStacks` |
| Hud.FlightDataDisplay.constructor | tellopy/examples/keyboard_and_video.py:281-296 | an element starts with no cached value and no surface |
| Hud.FlightDataDisplay.Update | tellopy/examples/keyboard_and_video.py:298-303 | the element's new value and surface are those `Refresh` gives for the looked-up value, and the surface is returned |
| Pilot.Initial | tellopy/examples/keyboard_and_video.py:81-98 | the controls start at 0.0, with no recorder, no player and no previous printout, the drone's zoom flag as given, and empty logs |
| Pilot.Axis | tellopy/examples/keyboard_and_video.py:118-142 | an axis event changes only the control scalars and the command log |
| Pilot.AxisFollowsBinding | tellopy/examples/keyboard_and_video.py:118-142 | an unbound axis does nothing; a bound axis smooths its channel toward the reversed reading, with 0.0 inside the deadzone; it leaves the other three scalars alone and sends exactly the channel's setter, then the one matching stop command exactly when the reading is in the deadzone |
| Pilot.AxisKeepsRange | tellopy/examples/keyboard_and_video.py:118-142 | a reading in [-1, 1] keeps all four control scalars in [-1, 1] |
| Pilot.Hat | tellopy/examples/keyboard_and_video.py:143-155 | a d-pad event changes only the log: exactly one yaw command chosen by the sign of x, then exactly one vertical command chosen by the sign of y |
| Pilot.ButtonPress | tellopy/examples/keyboard_and_video.py:156-174 | a press sends `land()` for LAND, a movement button's motion at the speed, and nothing for any other button |
| Pilot.ButtonRelease | tellopy/examples/keyboard_and_video.py:175-197 | a release sends `takeoff()` for TAKEOFF, a movement button's motion at 0, and nothing for any other button |
| Pilot.Input | tellopy/examples/keyboard_and_video.py:111-197 | only axis events move the control scalars; key and other events change nothing; readings in [-1, 1] keep the scalars in [-1, 1] |
| Pilot.ToggleRecording | tellopy/examples/keyboard_and_video.py:199-223 | speed 0 changes nothing; otherwise the recording flips between idle and open; opening records the file name and reports it; closing reports the name the recording was opened on; nothing else changes |
| Pilot.TakePicture | tellopy/examples/keyboard_and_video.py:225-228 | speed 0 changes nothing; otherwise only `take_picture()` is sent |
| Pilot.PalmLand | tellopy/examples/keyboard_and_video.py:230-233 | speed 0 changes nothing; otherwise only `palm_land()` is sent |
| Pilot.ToggleZoom | tellopy/examples/keyboard_and_video.py:235-247 | speed 0 changes nothing; otherwise the zoom flag flips, the drone is told the new mode and the display is blanked |
| Pilot.RunHandler | tellopy/examples/keyboard_and_video.py:260-276 | a gated handler at speed 0 does nothing; an arrow lambda sends its motion at twice the speed; the takeoff, land and encoder-rate lambdas send exactly `takeoff()`, `land()` and `set_video_encoder_rate(n)` whatever the speed; handlers other than recording and zoom change only the log; no handler moves the control scalars, the player or the last printout |
| Pilot.Key | tellopy/examples/keyboard_and_video.py:447-462 | an unbound key does nothing; an action name is sent with the given speed; a gated handler at speed 0 does nothing; no key moves the control scalars, the player or the last printout |
| Pilot.Step | tellopy/examples/keyboard_and_video.py:438-462 | an event ends the loop exactly when it is the quit key pressed, and then only `quit()` is sent; other key presses go to the table at speed 30; releases go at speed 0; other events go to `handle_input_event` |
| Pilot.Run | tellopy/examples/keyboard_and_video.py:436-462 | the queue ends the loop exactly when the quit key is pressed in it; readings in [-1, 1] keep the control scalars in [-1, 1] through the whole queue |
| Pilot.Shutdown | tellopy/examples/keyboard_and_video.py:465-470 | the session ends idle; an open recording is reported saved under its name; `quit()` is sent last; nothing else changes |
| Pilot.VideoFrame | tellopy/examples/keyboard_and_video.py:348-368 | each failed write reports its error and drops only that sink; a successful write keeps the sink; nothing else changes |
| PilotProperties.CentredTriggerStopsClimb | tellopy/examples/keyboard_and_video.py:118-127 | a centred trigger sends the smoothed throttle toward 0.0, then `up(0)` |
| PilotProperties.MovementButtonPressRelease | tellopy/examples/keyboard_and_video.py:156-197 | a movement button sends its motion at 100 on press and the same motion at 0 on release |
| PilotProperties.TakeoffOnReleaseLandOnPress | tellopy/examples/keyboard_and_video.py:156-197 | TAKEOFF fires only on release and LAND only on press |
| PilotProperties.ActionKeyPressRelease | tellopy/examples/keyboard_and_video.py:447-462 | a key bound to an action name sends it at 30 on KEYDOWN and at 0 on KEYUP, and does not end the loop |
| PilotProperties.ArrowKeyPressRelease | tellopy/examples/keyboard_and_video.py:260-263 | an arrow key sends its motion at twice 30 on KEYDOWN and at 0 on KEYUP |
| PilotProperties.GatedKeysIgnoreRelease | tellopy/examples/keyboard_and_video.py:225-247 | `p`, `r`, `z`, `enter` and `return` do nothing on KEYUP |
| PilotProperties.UngatedKeysFireTwice | tellopy/examples/keyboard_and_video.py:264-276 | `tab`, `backspace` and `0` to `5` send the same one command on KEYDOWN and again on KEYUP |
| PilotProperties.UnboundKeysDoNothing | tellopy/examples/keyboard_and_video.py:447-462 | keys outside the table, other than `escape`, change nothing on press or release |
| PilotProperties.RecordTwice | tellopy/examples/keyboard_and_video.py:199-223 | two toggles from idle end idle and report starting and then saving the same first file name, whatever name the second call is given |
| PilotProperties.ZoomTwice | tellopy/examples/keyboard_and_video.py:235-247 | two zoom toggles restore the mode and tell the drone each new mode in turn |
| PilotProperties.PictureAndPalmLandGated | tellopy/examples/keyboard_and_video.py:225-233 | `take_picture` and `palm_land` do nothing at speed 0 and send their one command otherwise |
| PilotProperties.RecordKeyOnPress | tellopy/examples/keyboard_and_video.py:267-267 | pressing `r` calls `toggle_recording` at speed 30 with the current file name, and does not end the loop |
| PilotProperties.ZoomKeyOnPress | tellopy/examples/keyboard_and_video.py:268-268 | pressing `z` calls `toggle_zoom` at speed 30 |
| PilotProperties.PictureAndPalmLandKeysOnPress | tellopy/examples/keyboard_and_video.py:266-270 | pressing `enter` or `return` sends `take_picture()`, and pressing `p` sends `palm_land()` |
| PilotProperties.RunStopsAtQuit | tellopy/examples/keyboard_and_video.py:438-446 | the first quit key ends the queue: the events before it are handled, `quit()` is sent, and nothing after it is handled |
| PilotProperties.RunConcat | tellopy/examples/keyboard_and_video.py:436-438 | handling two queues in turn is handling their concatenation, when the first has no quit key |
| PilotProperties.QuitThenShutdown | tellopy/examples/keyboard_and_video.py:444-470 | after the quit key and the `finally`, the session is idle, an open recording is reported saved, and exactly two `quit()` calls follow the state before the quit key |
| KeyboardAndVideo.Session.constructor | tellopy/examples/keyboard_and_video.py:332-339 | the globals start as at import time, and `hud` holds six fresh, distinct elements with the formats, sources and colours of the list |
| KeyboardAndVideo.Session.HandleInputEvent | tellopy/examples/keyboard_and_video.py:111-197 | the new state is `Pilot.Input` of the old one |
| KeyboardAndVideo.Session.HandleAxis | tellopy/examples/keyboard_and_video.py:118-142 | the new state is `Pilot.Axis` of the old one |
| KeyboardAndVideo.Session.HandleHat | tellopy/examples/keyboard_and_video.py:143-155 | the new state is `Pilot.Hat` of the old one at speed 100 |
| KeyboardAndVideo.Session.HandleButtonDown | tellopy/examples/keyboard_and_video.py:156-174 | the new state is `Pilot.ButtonPress` of the old one at speed 100 |
| KeyboardAndVideo.Session.HandleButtonUp | tellopy/examples/keyboard_and_video.py:175-197 | the new state is `Pilot.ButtonRelease` of the old one |
| KeyboardAndVideo.Session.ToggleRecording | tellopy/examples/keyboard_and_video.py:199-223 | the new state is `Pilot.ToggleRecording` of the old one |
| KeyboardAndVideo.Session.TakePicture | tellopy/examples/keyboard_and_video.py:225-228 | the new state is `Pilot.TakePicture` of the old one |
| KeyboardAndVideo.Session.PalmLand | tellopy/examples/keyboard_and_video.py:230-233 | the new state is `Pilot.PalmLand` of the old one |
| KeyboardAndVideo.Session.ToggleZoom | tellopy/examples/keyboard_and_video.py:235-247 | the new state is `Pilot.ToggleZoom` of the old one |
| KeyboardAndVideo.Session.CallHandler | tellopy/examples/keyboard_and_video.py:260-276 | the new state is `Pilot.RunHandler` of the old one |
| KeyboardAndVideo.Session.HandleKey | tellopy/examples/keyboard_and_video.py:447-462 | the new state is `Pilot.Key` of the old one |
| KeyboardAndVideo.Session.HandleEvent | tellopy/examples/keyboard_and_video.py:438-462 | the new state and the quit flag are `Pilot.Step` of the old state |
| KeyboardAndVideo.Session.RunCycle | tellopy/examples/keyboard_and_video.py:438-462 | the new state and the quit flag are `Pilot.Run` of the old state over the queue |
| KeyboardAndVideo.Session.Shutdown | tellopy/examples/keyboard_and_video.py:465-470 | the new state is `Pilot.Shutdown` of the old one |
| KeyboardAndVideo.Session.Operate | tellopy/examples/keyboard_and_video.py:435-470 | the final state is `Pilot.Shutdown` after `Pilot.Run` over all the cycles' events in order, up to the first quit key |
| KeyboardAndVideo.Session.VideoFrame | tellopy/examples/keyboard_and_video.py:348-368 | the new state is `Pilot.VideoFrame` of the old one |
| KeyboardAndVideo.Session.RefreshAll | tellopy/examples/keyboard_and_video.py:312-320 | every element is refreshed as `Refresh` says; the blits and the running height are `Layout` and `StackHeight` of the new surfaces |
| KeyboardAndVideo.Session.UpdateHud | tellopy/examples/keyboard_and_video.py:311-327 | every element is refreshed; the overlay drawn is `Compose` of the new surfaces; only the display log of the session changes |
| KeyboardAndVideo.Session.FlightData | tellopy/examples/keyboard_and_video.py:341-346 | the printout is remembered; an unchanged printout changes nothing else; a changed one refreshes every element and draws the composed overlay |

## Left out

- Pixels and fonts are not modelled. This covers pygame display set-up,
  font rendering, the `%` formatting of the lines, the overlay fill and
  blitting, `display.update`, and the window caption behind `status_print`.
  A glyph is an abstract value with a height; the captions are modelled by
  `Drone.Caption`.
- The external processes are not modelled: the `Popen` of mencoder and
  mplayer, their command lines (including the `-wid` argument), and the
  bytes written to their stdin. A sink is a flag or an optional file name,
  and each write is a success flag with an error text.
- Pilot.ToggleRecording: assumes the `Popen` of mencoder succeeds. The source
  does not catch its failure, which would end the loop through the `finally`.
- Pilot.VideoFrame: assumes the `Popen` of mplayer succeeds. A failure there
  raises inside the drone's callback dispatch, on the drone's own thread and
  outside the input loop, and is not modelled.
- The clock and the environment are not read. `datetime.now()` and
  `os.getenv('HOME')` only build the recording file name, which is a
  parameter.
- `handleFileReceived` is not modelled. It writes a received photo to a
  file, which is I/O only.
- Joystick detection by device name in `main` (lines 397-425) is not
  modelled. It is hardware-dependent, and it names binding classes that are
  not in this file. Only the `JoystickX360` bindings are modelled.
- `connect`, `start_video`, `subscribe` and the Tello protocol are not
  modelled; the drone is a command log.
- Threads are not modelled. The drone delivers telemetry and video frames
  on its own threads; the model handles each callback as one atomic step.
- `time.sleep` is not modelled.
- KeyboardAndVideo.Session.Operate: covers finitely many cycles. It stands
  for the endless `while 1` loop ended by the quit key, or by an exception
  after the last cycle given. It does not model the `except e:` clause, which
  names an event rather than an exception class.
- `print` diagnostics and the exit status are not modelled. This includes
  the throttle warning before `takeoff()` (lines 177-180) and the key echo.
- IEEE floating point is not modelled; the control scalars are reals.

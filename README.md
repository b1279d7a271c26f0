# gesturepaint: the per-frame drawing state machine

gesturepaint is an "air drawing" toy with three prototypes. Each one is a `HandDraw` class
driven by `while True: app.update()`. Every call reads one camera frame and finds the
thumb tip and index tip of the first detected hand. It then applies a pinch test
(squared fingertip distance below a fixed threshold) and draws on a white 1280x720
canvas. This project models the state that `update` owns in each prototype:

- `PinchToggle` (`main.py`): every pinched frame flips `draw_active`, and an open hand
  clears it. While the flag is on, each frame draws a black line (width 3) from the
  cursor `prev_x/prev_y` to the floor midpoint of the two fingertips, unless either cursor
  coordinate is -1 (as before the first stroke point). It then moves the
  cursor there and stamps a filled red pointer (radius 10).
- `PinchStamp` (`main_2.py`): every pinched frame flips `draw_active`. An open hand does
  not clear it; only another pinch switches it off.
  While the flag is on, each frame stamps a filled black dot (radius 3) at the midpoint.
- `KeyToggle` (`main_1.py`): the `p` key flips `draw_active` behind a `key_pressed`
  latch, and nothing reads that flag. A pinch (threshold 30) calls `draw_on_canvas`.
  That call raises `NameError` because `x` and `y` are never defined, and the
  exception ends the program.
- `Frames`: what the three share. It holds the frame input (read succeeded, optional
  hand, raw key code), the pinch test, the floor midpoint and the `& 0xFF` key mask. It
  also holds the canvas, kept as its size, its white background and the log of
  `cv2.line`/`cv2.circle` calls made on it.

Each variant has a pure specification: `State`, `Step` (one `update`) and `Run` (the
loop over a finite list of frames). The lemmas about these say what a sequence of frames
does. Each variant also has a `class HandDraw` whose fields are the object's fields. Its
methods `Update`, `DrawOnCanvas`, `TogglePencil` and `OnClose` are written as the
source's statements and are proved equal to `Step` and its parts. `RunFrames` is the
driver loop, proved equal to `Run`.

Modelling decisions:

- The pinch test `np.sqrt(dx**2 + dy**2) < T` becomes `dx*dx + dy*dy < T*T`.
  `Frames.SqrtBelowThreshold` proves that the two agree for the exact square root.
- `cv2.waitKey(1) & 0xFF` is `raw % 256`. For every integer this equals Python's
  `& 0xFF`, and it maps "no key" (-1) to 255.
- Python's `//` on `(a + b) // 2` is floor division, and so is Dafny's `/` by 2.
- `on_close` releases the camera. After that, `cap.read()` returns no frame, so every
  later `update` returns at once. The model keeps this as a `released` field.
- `main.py` never resets `prev_x/prev_y` after `__init__` (`StrokeJoinsAcrossPause`).
  Both pinch variants flip on every pinched frame, with no edge detection
  (`HeldPinchFlipsEveryFrame`). In `main_1.py` every call of `draw_on_canvas` raises
  (`KeyToggle.Step`).

## Model

| member | source | states |
|---|---|---|
| `Frames.KeyByte` | main.py:68 | the masked key lies in 0..255, differs from the raw code by a multiple of 256, keeps codes already in 0..255, and maps "no key" (-1) to 255 |
| `Frames.SqDist` | main.py:55 | the squared fingertip distance is a natural number, and it is zero exactly when the two fingertips coincide |
| `Frames.SqrtBelowThreshold` | main.py:55-57 | for the exact root r of the squared distance d, `r < T` holds exactly when `d < T*T`, so the integer test decides as `np.sqrt(...) < T` does |
| `Frames.Midpoint` | main.py:77-78 | each coordinate of the draw point is the floor of the average of the two fingertips (2m <= a+b < 2m+2), and equal fingertips give that point |
| `Frames.WhiteCanvas` | main.py:21 | the canvas starts 720 high, 1280 wide, all white, with nothing drawn |
| `PinchToggle.Init` | main.py:6-23 | the defaults: drawing off, both fingertips at (0, 0), cursor at the sentinel (-1, -1), blank white canvas, camera open |
| `PinchToggle.SenseHand` | main.py:45-60 | a found hand overwrites both stored fingertips; afterwards the flag is on exactly when the hand is pinched (< 40) and the flag was off, so a pinch flips it and any other distance, 40 included, clears it; cursor and canvas are untouched |
| `PinchToggle.PaintFrame` | main.py:72-87 | an inactive frame changes nothing; an active one moves the cursor to the midpoint and only extends the canvas: a black width-3 line from the old cursor first if neither cursor coordinate is -1, then a filled red radius-10 pointer at the midpoint, last |
| `PinchToggle.Step` | main.py:34-70 | a failed read, or a released camera, changes nothing; with no hand the flag and stored fingertips carry over; a found hand's fingertips are stored and the flag follows the pinch rule; an active result, stale fingertips included, moves the cursor to the stored midpoint and appends a black width-3 line from the old cursor (only if neither coordinate is -1) and then the red pointer; the canvas is only extended; an inactive result leaves canvas and cursor untouched; `q` releases the camera |
| `PinchToggle.Run` | main.py:102-108 | over any frames the canvas keeps its size and background and only grows (nothing is cleared), and a released camera stays released |
| `PinchToggle.HeldPinchFlipsEveryFrame` | main.py:57-58 | holding a pinch for n frames flips the flag n times: it ends switched exactly when n is odd |
| `PinchToggle.IdleRunKeepsCanvas` | main.py:57-60 | from the inactive state, frames with no pinch keep drawing off and leave the cursor and the canvas unchanged; without `q` the camera stays open |
| `PinchToggle.StrokeJoinsAcrossPause` | main.py:81-84 | the cursor is never reset: after any pause of idle frames, the next pinch draws a line from the last point of the earlier stroke to the new midpoint, then the pointer |
| `PinchToggle.OffFrameMidpointBreaksStroke` | main.py:81 | a stroke point with x = -1 is read as "no cursor", so the next point gets a pointer but no joining line |
| `PinchToggle.ReleasedIsFinal` | main.py:35-37 | once the camera is released, no further frame changes any state or the canvas |
| `PinchToggle.OnlyInkIsDrawn` | main.py:81-87 | every primitive ever drawn is a black width-3 line or a filled red radius-10 circle |
| `PinchToggle.FlickeringPinchScenario` | main.py:54-87 | three pinched frames from start-up: on and stamp, off, on again with a line joining the third midpoint to the first |
| `PinchToggle.HandDraw.constructor` | main.py:6-23 | a new object holds the `__init__` defaults |
| `PinchToggle.HandDraw.TogglePencil` | main.py:28-29 | negates the flag and changes nothing else |
| `PinchToggle.HandDraw.OnClose` | main.py:31-32 | releases the camera and changes nothing else |
| `PinchToggle.HandDraw.DrawOnCanvas` | main.py:72-90 | changes the object exactly as `PaintFrame` says |
| `PinchToggle.HandDraw.Update` | main.py:34-70 | changes the object exactly as `Step` says |
| `PinchToggle.RunFrames` | main.py:107-108 | feeding frames one by one to `Update` gives the state `Run` gives |
| `PinchStamp.Init` | main_2.py:6-21 | the defaults: drawing off, fingertips at (0, 0), cursor at (-1, -1), blank white canvas, camera open |
| `PinchStamp.SenseHand` | main_2.py:40-53 | a found hand overwrites both fingertips; the flag flips exactly when the hand is pinched (< 40), and any other distance leaves it as it was |
| `PinchStamp.PaintFrame` | main_2.py:62-74 | only the canvas changes; an inactive frame draws nothing, and an active one appends exactly one filled black radius-3 dot at the midpoint and no line |
| `PinchStamp.Step` | main_2.py:29-60 | a failed read or a released camera changes nothing; the canvas keeps its size and background and only grows; with no hand, flag and fingertips carry over; a found hand's fingertips are stored and the flag flips exactly on a pinch; the cursor never changes; an active result adds exactly one dot at the stored midpoint, and anything else leaves the canvas alone; `q` releases the camera |
| `PinchStamp.Run` | main_2.py:76-82 | over any frames the canvas only grows, and the cursor keeps its initial value forever |
| `PinchStamp.HeldPinchFlipsEveryFrame` | main_2.py:52-53 | holding a pinch for n frames flips the flag n times |
| `PinchStamp.LostHandRestamps` | main_2.py:56-71 | while drawing, n frames without a hand keep the flag on and stamp the same dot n times at the stale midpoint |
| `PinchStamp.IdleRunKeepsCanvas` | main_2.py:65 | from the inactive state, frames with no pinch keep drawing off and leave the canvas unchanged |
| `PinchStamp.OnlyDotsAreDrawn` | main_2.py:71 | every primitive ever drawn is a filled black circle of radius 3 |
| `PinchStamp.HandDraw.constructor` | main_2.py:6-21 | a new object holds the `__init__` defaults |
| `PinchStamp.HandDraw.TogglePencil` | main_2.py:23-24 | negates the flag and changes nothing else |
| `PinchStamp.HandDraw.OnClose` | main_2.py:26-27 | releases the camera and changes nothing else |
| `PinchStamp.HandDraw.DrawOnCanvas` | main_2.py:62-74 | changes the object exactly as `PaintFrame` says |
| `PinchStamp.HandDraw.Update` | main_2.py:29-60 | changes the object exactly as `Step` says |
| `PinchStamp.RunFrames` | main_2.py:81-82 | feeding frames one by one to `Update` gives the state `Run` gives |
| `KeyToggle.Init` | main_1.py:6-20 | the defaults: drawing off, latch clear, blank white canvas, camera open |
| `KeyToggle.PaintFrame` | main_1.py:63-66 | `draw_on_canvas` always fails with the undefined-name error and yields no state |
| `KeyToggle.PressKey` | main_1.py:54-61 | the flag flips exactly on `p` with the latch clear; afterwards the latch is set exactly when the key was `p`, or was `q` or "no key" (255) with the latch already set; only `q` releases the camera; the canvas is untouched |
| `KeyToggle.Step` | main_1.py:28-61 | a failed read or a released camera changes nothing; a frame raises exactly when a hand is pinched (< 30), whatever the flag; a frame that does not raise never touches the canvas, flips the flag exactly on `p` with the latch clear, leaves the latch set exactly when the key was `p`, or `q` or "no key" (255) with the latch already set, and releases the camera on `q` |
| `KeyToggle.Run` | main_1.py:69-75 | a run that has not raised leaves the canvas exactly as it started; a run that raised did so with the undefined-name error |
| `KeyToggle.ErrorIsFinal` | main_1.py:74-75 | once a frame has raised, the loop is over: no later frame changes the outcome |
| `KeyToggle.FlagIsNeverRead` | main_1.py:38-50 | flipping `draw_active` before a frame changes neither whether it raises nor anything else the frame does |
| `KeyToggle.RaisesIffPinched` | main_1.py:46-50 | while `q` is not pressed, a run raises exactly when one of its frames carries a pinched hand |
| `KeyToggle.LatchFlipsAtMostOnce` | main_1.py:57-61 | with only `p` or no key pressed, a set latch blocks every flip, and a flip leaves the latch set: the flag flips at most once, and releasing `p` does not re-arm it |
| `KeyToggle.HeldPencilKeyFlipsOnce` | main_1.py:57-59 | holding `p` for n >= 1 frames that are read and show no pinched hand (no hand, or an open one) flips the flag once if the latch was clear, not at all if it was set, and leaves the latch set |
| `KeyToggle.HandDraw.constructor` | main_1.py:6-20 | a new object holds the `__init__` defaults |
| `KeyToggle.HandDraw.TogglePencil` | main_1.py:22-23 | negates the flag and changes nothing else |
| `KeyToggle.HandDraw.OnClose` | main_1.py:25-26 | releases the camera and changes nothing else |
| `KeyToggle.HandDraw.DrawOnCanvas` | main_1.py:63-66 | always raises the undefined-name error that `PaintFrame` gives and changes nothing |
| `KeyToggle.HandDraw.Update` | main_1.py:28-61 | if `Step` succeeds, the object takes its state and nothing is raised; if `Step` fails, the error is raised and the object is unchanged |
| `KeyToggle.RunFrames` | main_1.py:74-75 | feeding frames to `Update` until one raises gives exactly the outcome of `Run`: the final state, or the error |

## Left out

- Camera capture is left out: `cv2.VideoCapture`, `cap.set`, `cap.read`'s image, `cv2.flip` and `cvtColor` are I/O. Only the `ret` flag of `cap.read()` is an input. After `cap.release()` the read is assumed to fail, which is OpenCV's behaviour.
- Hand-landmark inference is left out. MediaPipe is a foreign model, and the float scaling `int(landmark.x * width)` happens outside the model. The two fingertip pixel coordinates are integer inputs.
- Rasterisation is left out. `cv2.line` and `cv2.circle` are foreign calls, so the canvas records them as primitives in a log. Pixels, clipping at the canvas edge and `uint8` colour values are not modelled.
- The windows are left out: `cv2.imshow`, `namedWindow` and `draw_hand_landmarks` are UI with no effect on the state. `cv2.waitKey` is an integer input.
- The infinite `while True` loop is modelled only over finite lists of frames (`Run`, `RunFrames`).
- Frames.SqrtBelowThreshold: compares with the exact real square root, not with the float64 `np.sqrt`. The two agree because `np.sqrt` is correctly rounded and monotone and the integers involved are exact as doubles. That agreement is argued here, not proved.
- `KeyToggle` does not model the arguments of the `draw_on_canvas` call, or the `cv2.circle` that would follow with `pencil_size` 5. The call raises before either could matter.

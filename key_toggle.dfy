/** main_1.py: the drawing flag is flipped by the `p` key behind a "key still down"
    latch and is never read; a pinch calls `draw_on_canvas`, which raises because the
    point it draws at is never defined. */
module KeyToggle {
  import opened Frames

  const DistanceThreshold: nat := 30
  const PencilKey: int := 'p' as int

  /** The message of the `NameError` that `draw_on_canvas` raises. */
  const UndefinedName: string := "name 'x' is not defined"

  /** The fields of `HandDraw` that `update` reads or writes. */
  datatype State = State(drawActive: bool, keyPressed: bool, canvas: Canvas, released: bool)

  /** The defaults `__init__` sets. */
  function Init(): (s: State)
    ensures !s.drawActive && !s.keyPressed && !s.released
    ensures s.canvas == WhiteCanvas()
  {
    State(false, false, WhiteCanvas(), false)
  }

  /** `draw_on_canvas`: evaluating the centre `(x, y)` raises before `cv2.circle` runs,
      so it never yields a state and the canvas is never drawn on. */
  function PaintFrame(s: State): (r: Result<State>)
    ensures r.Err? && r.error == UndefinedName
  {
    Err(UndefinedName)
  }

  /** The `if`/`elif` chain on the masked key code at the end of `update`. */
  function PressKey(s: State, key: int): (t: State)
    ensures t.drawActive != s.drawActive <==> key == PencilKey && !s.keyPressed
    ensures t.keyPressed <==> key == PencilKey || ((key == QuitKey || key == NoKey) && s.keyPressed)
    ensures t.released <==> s.released || key == QuitKey
    ensures t.canvas == s.canvas
  {
    if key == QuitKey then s.(released := true)
    else if key == PencilKey && !s.keyPressed then
      s.(drawActive := !s.drawActive, keyPressed := true)
    else if key != PencilKey && key != NoKey then s.(keyPressed := false)
    else s
  }

  /** Whether `update` gets past `cap.read()`: a released camera yields no frame. */
  predicate Reads(s: State, f: Frame)
  {
    f.ret && !s.released
  }

  /** A frame that reaches `draw_on_canvas`: a hand pinched closer than the threshold.
      The drawing flag plays no part in it. */
  predicate ReachesDraw(f: Frame)
  {
    f.ret && f.hand.Some? && Pinched(f.hand.value, DistanceThreshold)
  }

  /** One call of `update`; `Err` is the exception it raises. */
  function Step(s: State, f: Frame): (r: Result<State>)
    ensures !Reads(s, f) ==> r == Ok(s)
    ensures r.Err? <==> Reads(s, f) && ReachesDraw(f)
    ensures r.Err? ==> r.error == UndefinedName
    ensures r.Ok? ==> r.value.canvas == s.canvas
    ensures r.Ok? ==>
      (r.value.drawActive != s.drawActive <==>
        Reads(s, f) && KeyByte(f.key) == PencilKey && !s.keyPressed)
    ensures r.Ok? && Reads(s, f) ==>
      var key := KeyByte(f.key);
      (r.value.keyPressed <==> (key == PencilKey || ((key == QuitKey || key == NoKey) && s.keyPressed)))
    ensures r.Ok? ==> (r.value.released <==> s.released || (f.ret && KeyByte(f.key) == QuitKey))
  {
    if !Reads(s, f) then Ok(s)
    else
      var drawn := if f.hand.Some? && Pinched(f.hand.value, DistanceThreshold) then PaintFrame(s)
                   else Ok(s);
      match drawn
      case Err(e) => Err(e)
      case Ok(t) => Ok(PressKey(t, KeyByte(f.key)))
  }

  /** The `while True: app.update()` loop over a finite prefix of frames; an exception
      ends the program, so the first `Err` is final. */
  function Run(s: State, frames: seq<Frame>): (r: Result<State>)
    decreases |frames|
    ensures r.Ok? ==> r.value.canvas == s.canvas
    ensures r.Err? ==> r.error == UndefinedName
  {
    if frames == [] then Ok(s)
    else
      match Run(s, frames[..|frames| - 1])
      case Err(e) => Err(e)
      case Ok(u) => Step(u, frames[|frames| - 1])
  }

  // ---------------------------------------------------------------- properties

  /** Once a run has raised, no later frame brings it back. */
  lemma {:induction false} ErrorIsFinal(s: State, frames: seq<Frame>, k: nat)
    requires k <= |frames| && Run(s, frames[..k]).Err?
    ensures Run(s, frames) == Run(s, frames[..k])
    decreases |frames|
  {
    if k < |frames| {
      var front := frames[..|frames| - 1];
      assert front[..k] == frames[..k];
      ErrorIsFinal(s, front, k);
    } else {
      assert frames[..k] == frames;
    }
  }

  /** The drawing flag is never read: flipping it changes neither whether a frame
      raises nor anything else `update` does. */
  lemma FlagIsNeverRead(s: State, f: Frame)
    ensures Step(s, f).Err? == Step(s.(drawActive := !s.drawActive), f).Err?
    ensures Step(s, f).Ok? ==>
      Step(s.(drawActive := !s.drawActive), f).value ==
        Step(s, f).value.(drawActive := !Step(s, f).value.drawActive)
  {
  }

  /** While `q` is never pressed, a run raises exactly when some frame carries a pinch. */
  lemma {:induction false} RaisesIffPinched(s: State, frames: seq<Frame>)
    requires !s.released
    requires forall i :: 0 <= i < |frames| ==> KeyByte(frames[i].key) != QuitKey
    ensures Run(s, frames).Err? <==> exists i :: 0 <= i < |frames| && ReachesDraw(frames[i])
    ensures Run(s, frames).Ok? ==> !Run(s, frames).value.released
  {
    if frames != [] {
      var front, last := frames[..|frames| - 1], frames[|frames| - 1];
      RaisesIffPinched(s, front);
      if Run(s, front).Err? {
        var i :| 0 <= i < |front| && ReachesDraw(front[i]);
        assert ReachesDraw(frames[i]);
      } else if ReachesDraw(last) {
        assert ReachesDraw(frames[|frames| - 1]);
      } else {
        forall i | 0 <= i < |frames| ensures !ReachesDraw(frames[i]) {
          if i < |front| {
            assert frames[i] == front[i];
          }
        }
      }
    }
  }

  /** With only `p` or no key pressed, the latch lets the flag flip at most once: a set
      latch blocks every flip, and a flip leaves the latch set, since releasing `p`
      (no key, 255) does not clear it. */
  lemma {:induction false} LatchFlipsAtMostOnce(s: State, frames: seq<Frame>)
    requires forall i :: 0 <= i < |frames| ==>
      KeyByte(frames[i].key) == PencilKey || KeyByte(frames[i].key) == NoKey
    ensures var r := Run(s, frames);
      r.Ok? ==>
        && (s.keyPressed ==> r.value.keyPressed && r.value.drawActive == s.drawActive)
        && (r.value.drawActive != s.drawActive ==> !s.keyPressed && r.value.keyPressed)
  {
    if frames != [] {
      var front := frames[..|frames| - 1];
      LatchFlipsAtMostOnce(s, front);
    }
  }

  /** Holding `p` for `n` frames that read and carry no pinched hand flips the flag
      once, on the first frame, and then only keeps the latch set. */
  lemma {:induction false} HeldPencilKeyFlipsOnce(s: State, f: Frame, n: nat)
    requires !s.released && f.ret && !ReachesDraw(f) && KeyByte(f.key) == PencilKey && n > 0
    ensures Run(s, Repeat(f, n)) ==
      Ok(s.(drawActive := s.drawActive != !s.keyPressed, keyPressed := true))
  {
    if n > 1 {
      HeldPencilKeyFlipsOnce(s, f, n - 1);
      assert Repeat(f, n)[..n - 1] == Repeat(f, n - 1);
    } else {
      assert Repeat(f, 1)[..0] == [];
    }
  }

  // ---------------------------------------------------------------- the object

  /** The `HandDraw` object of main_1.py, restricted to the state its frame loop owns. */
  class HandDraw {
    var drawActive: bool
    var keyPressed: bool
    var canvas: Canvas
    /** Whether `on_close` has released the camera. */
    var released: bool

    function Snapshot(): State
      reads this
    {
      State(drawActive, keyPressed, canvas, released)
    }

    constructor ()
      ensures Snapshot() == Init()
    {
      drawActive, keyPressed := false, false;
      canvas := WhiteCanvas();
      released := false;
    }

    method TogglePencil()
      modifies this
      ensures Snapshot() == old(Snapshot()).(drawActive := !old(drawActive))
    {
      drawActive := !drawActive;
    }

    method OnClose()
      modifies this
      ensures Snapshot() == old(Snapshot()).(released := true)
    {
      released := true;
    }

    /** Raises before anything is drawn; the exception is returned. */
    method DrawOnCanvas() returns (raised: string)
      ensures Err(raised) == PaintFrame(Snapshot())
    {
      raised := UndefinedName;
    }

    /** One call of `update`; `raised` is the exception it lets escape, if any. */
    method Update(f: Frame) returns (raised: Option<string>)
      modifies this
      ensures Step(old(Snapshot()), f).Ok? ==>
        raised == None && Snapshot() == Step(old(Snapshot()), f).value
      ensures Step(old(Snapshot()), f).Err? ==>
        raised == Some(Step(old(Snapshot()), f).error) && Snapshot() == old(Snapshot())
    {
      raised := None;
      if !f.ret || released {
        return;
      }
      if f.hand.Some? && SqDist(f.hand.value) < DistanceThreshold * DistanceThreshold {
        var e := DrawOnCanvas();
        raised := Some(e);
        return;
      }
      var key := KeyByte(f.key);
      if key == QuitKey {
        OnClose();
      } else if key == PencilKey && !keyPressed {
        TogglePencil();
        keyPressed := true;
      } else if key != PencilKey && key != NoKey {
        keyPressed := false;
      }
    }
  }

  /** Feeds `frames` to `app.update()` in order until one raises. */
  method RunFrames(app: HandDraw, frames: seq<Frame>) returns (raised: Option<string>)
    modifies app
    ensures raised == None ==> Run(old(app.Snapshot()), frames) == Ok(app.Snapshot())
    ensures raised.Some? ==> Run(old(app.Snapshot()), frames) == Err(raised.value)
  {
    var i := 0;
    raised := None;
    while i < |frames|
      invariant 0 <= i <= |frames|
      invariant Run(old(app.Snapshot()), frames[..i]) == Ok(app.Snapshot())
      invariant raised == None
    {
      assert frames[..i + 1][..i] == frames[..i];
      ghost var before := app.Snapshot();
      raised := app.Update(frames[i]);
      assert Run(old(app.Snapshot()), frames[..i + 1]) == Step(before, frames[i]);
      if raised.Some? {
        ErrorIsFinal(old(app.Snapshot()), frames, i + 1);
        return;
      }
      i := i + 1;
    }
    assert frames[..i] == frames;
  }
}

/** main.py: every pinched frame flips the drawing flag, an open hand switches it off,
    and while the flag is on each frame draws a line from the stroke cursor, unless a
    cursor coordinate is -1, to the fingertip midpoint and stamps a red pointer there. */
module PinchToggle {
  import opened Frames

  const DistanceThreshold: nat := 40
  const PencilSize: int := 3
  const PointerSize: int := 10

  /** The value `prev_x`/`prev_y` hold before the first stroke point. */
  const NoCursor: int := -1

  /** The fields of `HandDraw` that `update` reads or writes. */
  datatype State = State(
    drawActive: bool,
    thumb: Point,
    index: Point,
    prev: Point,
    canvas: Canvas,
    released: bool)

  /** The defaults `__init__` sets. */
  function Init(): (s: State)
    ensures !s.drawActive && !s.released
    ensures s.thumb == Point(0, 0) && s.index == Point(0, 0)
    ensures s.prev == Point(NoCursor, NoCursor)
    ensures s.canvas == WhiteCanvas()
  {
    State(false, Point(0, 0), Point(0, 0), Point(NoCursor, NoCursor), WhiteCanvas(), false)
  }

  /** A line is drawn from the cursor only when neither coordinate is the sentinel. */
  predicate HasCursor(p: Point)
  {
    p.x != NoCursor && p.y != NoCursor
  }

  /** The only primitives this variant draws: black pencil lines and red pointers. */
  predicate Ink(p: Prim)
  {
    || (p.Line? && p.color == Black && p.thickness == PencilSize)
    || (p.Circle? && p.radius == PointerSize && p.color == Red && p.thickness == Filled)
  }

  /** The gesture branch of `update` when a hand is found: store both fingertips, then
      flip the flag on a pinch and clear it otherwise. */
  function SenseHand(s: State, h: Hand): (t: State)
    ensures t.thumb == h.thumb && t.index == h.index
    ensures t.drawActive <==> Pinched(h, DistanceThreshold) && !s.drawActive
    ensures t.prev == s.prev && t.canvas == s.canvas && t.released == s.released
  {
    var t := s.(thumb := h.thumb, index := h.index);
    if Pinched(h, DistanceThreshold) then t.(drawActive := !t.drawActive)
    else t.(drawActive := false)
  }

  /** `draw_on_canvas`: while drawing, join the cursor to the midpoint of the stored
      fingertips, move the cursor there and stamp the pointer on top. */
  function PaintFrame(s: State): (t: State)
    ensures !s.drawActive ==> t == s
    ensures t.drawActive == s.drawActive && t.thumb == s.thumb && t.index == s.index
    ensures t.released == s.released && Extends(s.canvas, t.canvas)
    ensures s.drawActive ==>
      var m, n := Midpoint(Hand(s.thumb, s.index)), |s.canvas.log|;
      && t.prev == m
      && |t.canvas.log| == n + (if HasCursor(s.prev) then 2 else 1)
      && (HasCursor(s.prev) ==> t.canvas.log[n] == Line(s.prev, m, Black, PencilSize))
      && t.canvas.log[|t.canvas.log| - 1] == Circle(m, PointerSize, Red, Filled)
  {
    if !s.drawActive then s
    else
      var m := Midpoint(Hand(s.thumb, s.index));
      var c := if HasCursor(s.prev) then Draw(s.canvas, Line(s.prev, m, Black, PencilSize))
               else s.canvas;
      s.(prev := m, canvas := Draw(c, Circle(m, PointerSize, Red, Filled)))
  }

  /** Whether `update` gets past `cap.read()`: a released camera yields no frame. */
  predicate Reads(s: State, f: Frame)
  {
    f.ret && !s.released
  }

  /** One call of `update`. */
  function Step(s: State, f: Frame): (t: State)
    ensures !Reads(s, f) ==> t == s
    ensures Reads(s, f) && f.hand.None? ==>
      t.drawActive == s.drawActive && t.thumb == s.thumb && t.index == s.index
    ensures Reads(s, f) && f.hand.Some? ==>
      (t.drawActive <==> Pinched(f.hand.value, DistanceThreshold) && !s.drawActive)
    ensures Reads(s, f) && f.hand.Some? ==>
      t.thumb == f.hand.value.thumb && t.index == f.hand.value.index
    ensures Reads(s, f) && t.drawActive ==>
      var m := Midpoint(Hand(t.thumb, t.index));
      && t.prev == m
      && t.canvas.log == s.canvas.log
           + (if HasCursor(s.prev) then [Line(s.prev, m, Black, PencilSize)] else [])
           + [Circle(m, PointerSize, Red, Filled)]
    ensures Extends(s.canvas, t.canvas)
    ensures t.prev != s.prev ==> t.drawActive && t.prev == Midpoint(Hand(t.thumb, t.index))
    ensures !t.drawActive ==> t.canvas == s.canvas && t.prev == s.prev
    ensures t.released <==> s.released || (f.ret && KeyByte(f.key) == QuitKey)
  {
    if !Reads(s, f) then s
    else
      var sensed := if f.hand.Some? then SenseHand(s, f.hand.value) else s;
      var drawn := PaintFrame(sensed);
      drawn.(released := drawn.released || KeyByte(f.key) == QuitKey)
  }

  /** The `while True: app.update()` loop over a finite prefix of frames. */
  function Run(s: State, frames: seq<Frame>): (t: State)
    decreases |frames|
    ensures Extends(s.canvas, t.canvas)
    ensures s.released ==> t.released
  {
    if frames == [] then s
    else
      var u := Run(s, frames[..|frames| - 1]);
      var t := Step(u, frames[|frames| - 1]);
      ExtendsTransitive(s.canvas, u.canvas, t.canvas);
      t
  }

  /** A frame whose hand is pinched: it flips the flag. */
  predicate PinchFrame(f: Frame)
  {
    f.ret && f.hand.Some? && Pinched(f.hand.value, DistanceThreshold)
  }

  // ---------------------------------------------------------------- properties

  /** There is no edge detection: holding a pinch for `n` frames flips the flag `n`
      times, so it ends up switched only when `n` is odd. */
  lemma {:induction false} HeldPinchFlipsEveryFrame(s: State, f: Frame, n: nat)
    requires !s.released && PinchFrame(f) && KeyByte(f.key) != QuitKey
    ensures Run(s, Repeat(f, n)).drawActive == (s.drawActive != (n % 2 == 1))
    ensures !Run(s, Repeat(f, n)).released
  {
    if n > 0 {
      HeldPinchFlipsEveryFrame(s, f, n - 1);
      var u := Run(s, Repeat(f, n - 1));
      assert Repeat(f, n)[..n - 1] == Repeat(f, n - 1);
      assert Run(s, Repeat(f, n)) == Step(u, f);
      PinchFlips(u, f);
      ParityFlips(n);
    }
  }

  /** One pinched frame on an open camera flips the flag and keeps the camera open. */
  lemma PinchFlips(s: State, f: Frame)
    requires !s.released && PinchFrame(f) && KeyByte(f.key) != QuitKey
    ensures Step(s, f).drawActive == !s.drawActive && !Step(s, f).released
  {
  }

  /** Frames that cannot switch drawing on (a failed read, no hand, or an open hand)
      leave an inactive recorder inactive, its cursor where it was and the canvas
      untouched. */
  lemma {:induction false} IdleRunKeepsCanvas(s: State, frames: seq<Frame>)
    requires !s.drawActive
    requires forall i :: 0 <= i < |frames| ==> !PinchFrame(frames[i])
    ensures var t := Run(s, frames);
      !t.drawActive && t.prev == s.prev && t.canvas == s.canvas
    ensures (forall i :: 0 <= i < |frames| ==> KeyByte(frames[i].key) != QuitKey) ==>
      Run(s, frames).released == s.released
  {
    if frames != [] {
      IdleRunKeepsCanvas(s, frames[..|frames| - 1]);
    }
  }

  /** The cursor is never put back to the sentinel: after a pause of idle frames, the
      next activating pinch draws a line from the last point of the previous stroke. */
  lemma {:induction false} StrokeJoinsAcrossPause(s: State, gap: seq<Frame>, f: Frame)
    requires !s.drawActive && !s.released && HasCursor(s.prev)
    requires forall i :: 0 <= i < |gap| ==> !PinchFrame(gap[i]) && KeyByte(gap[i].key) != QuitKey
    requires PinchFrame(f)
    ensures var m, log := Midpoint(f.hand.value), Run(s, gap + [f]).canvas.log;
      log == s.canvas.log + [Line(s.prev, m, Black, PencilSize), Circle(m, PointerSize, Red, Filled)]
  {
    IdleRunKeepsCanvas(s, gap);
    assert (gap + [f])[..|gap|] == gap;
  }

  /** The sentinel is an ordinary coordinate: a stroke point at x == -1 (fingertips
      just past the left edge) is taken for "no cursor", so the next point of the
      stroke gets its pointer but no line joining it. */
  lemma OffFrameMidpointBreaksStroke(s: State, raw: int)
    requires s.drawActive && !s.released && KeyByte(raw) != QuitKey
    requires Midpoint(Hand(s.thumb, s.index)).x == NoCursor
    ensures var f := Frame(true, None, raw);
      var m, t := Midpoint(Hand(s.thumb, s.index)), Step(s, f);
      Step(t, f).canvas.log == t.canvas.log + [Circle(m, PointerSize, Red, Filled)]
  {
  }

  /** Once `q` has released the camera, no later frame changes anything. */
  lemma {:induction false} ReleasedIsFinal(s: State, frames: seq<Frame>)
    requires s.released
    ensures Run(s, frames) == s
  {
    if frames != [] {
      ReleasedIsFinal(s, frames[..|frames| - 1]);
    }
  }

  /** Every primitive ever drawn is a black pencil line or a red pointer. */
  lemma {:induction false} OnlyInkIsDrawn(s: State, frames: seq<Frame>)
    requires AllPrims(s.canvas.log, Ink)
    ensures AllPrims(Run(s, frames).canvas.log, Ink)
  {
    if frames != [] {
      var u := Run(s, frames[..|frames| - 1]);
      OnlyInkIsDrawn(s, frames[..|frames| - 1]);
      var t := Step(u, frames[|frames| - 1]);
      assert t.canvas.log[..|u.canvas.log|] == u.canvas.log;
      forall i | |u.canvas.log| <= i < |t.canvas.log|
        ensures Ink(t.canvas.log[i])
      {
      }
    }
  }

  /** Three pinched frames from the start: the first switches drawing on and stamps a
      pointer, the second switches it off, and the third switches it on again and
      joins its midpoint to the first one. */
  lemma FlickeringPinchScenario(k: int)
    requires KeyByte(k) != QuitKey
    ensures
      var a, b, c := Point(100, 100), Point(110, 100), Point(200, 200);
      var f := (p: Point) => Frame(true, Some(Hand(p, Point(p.x + 2, p.y))), k);
      var t := Run(Init(), [f(a), f(b), f(c)]);
      var m1, m3 := Point(101, 100), Point(201, 200);
      && t.drawActive && t.prev == m3
      && t.canvas.log == [Circle(m1, PointerSize, Red, Filled),
                          Line(m1, m3, Black, PencilSize), Circle(m3, PointerSize, Red, Filled)]
  {
    var f := (p: Point) => Frame(true, Some(Hand(p, Point(p.x + 2, p.y))), k);
    var fs := [f(Point(100, 100)), f(Point(110, 100)), f(Point(200, 200))];
    assert fs[..2][..1] == [fs[0]];
    var s1 := Step(Init(), fs[0]);
    assert Run(Init(), fs[..1]) == s1;
    var s2 := Step(s1, fs[1]);
    assert Run(Init(), fs[..2]) == s2;
  }

  // ---------------------------------------------------------------- the object

  /** The `HandDraw` object of main.py, restricted to the state its frame loop owns. */
  class HandDraw {
    var drawActive: bool
    var thumb: Point
    var index: Point
    var prev: Point
    var canvas: Canvas
    /** Whether `on_close` has released the camera. */
    var released: bool

    function Snapshot(): State
      reads this
    {
      State(drawActive, thumb, index, prev, canvas, released)
    }

    constructor ()
      ensures Snapshot() == Init()
    {
      drawActive := false;
      thumb, index := Point(0, 0), Point(0, 0);
      canvas := WhiteCanvas();
      prev := Point(NoCursor, NoCursor);
      released := false;
    }

    method TogglePencil()
      modifies this
      ensures Snapshot() == old(Snapshot()).(drawActive := !old(drawActive))
    {
      drawActive := !drawActive;
    }

    method OnClose()
      modifies this
      ensures Snapshot() == old(Snapshot()).(released := true)
    {
      released := true;
    }

    method DrawOnCanvas()
      modifies this
      ensures Snapshot() == PaintFrame(old(Snapshot()))
    {
      if drawActive {
        var m := Midpoint(Hand(thumb, index));
        if prev.x != NoCursor && prev.y != NoCursor {
          canvas := Draw(canvas, Line(prev, m, Black, PencilSize));
        }
        prev := m;
        canvas := Draw(canvas, Circle(m, PointerSize, Red, Filled));
      }
    }

    method Update(f: Frame)
      modifies this
      ensures Snapshot() == Step(old(Snapshot()), f)
    {
      if !f.ret || released {
        return;
      }
      if f.hand.Some? {
        var h := f.hand.value;
        thumb, index := h.thumb, h.index;
        if SqDist(h) < DistanceThreshold * DistanceThreshold {
          TogglePencil();
        } else {
          drawActive := false;
        }
      }
      DrawOnCanvas();
      if KeyByte(f.key) == QuitKey {
        OnClose();
      }
    }
  }

  /** Feeds `frames` to `app.update()` in order. */
  method RunFrames(app: HandDraw, frames: seq<Frame>)
    modifies app
    ensures app.Snapshot() == Run(old(app.Snapshot()), frames)
  {
    var i := 0;
    while i < |frames|
      invariant 0 <= i <= |frames|
      invariant app.Snapshot() == Run(old(app.Snapshot()), frames[..i])
    {
      app.Update(frames[i]);
      assert frames[..i + 1][..i] == frames[..i];
      i := i + 1;
    }
    assert frames[..i] == frames;
  }
}

/** main_2.py: every pinched frame flips the drawing flag and nothing else clears it;
    while the flag is on each frame stamps one black dot at the fingertip midpoint. */
module PinchStamp {
  import opened Frames

  const DistanceThreshold: nat := 40
  const PencilSize: int := 3

  /** The fields of `HandDraw` that `update` reads or writes, and the cursor that
      `__init__` creates and nothing else touches. */
  datatype State = State(
    drawActive: bool,
    thumb: Point,
    index: Point,
    prev: Point,
    canvas: Canvas,
    released: bool)

  /** The defaults `__init__` sets. */
  function Init(): (s: State)
    ensures !s.drawActive && !s.released
    ensures s.thumb == Point(0, 0) && s.index == Point(0, 0)
    ensures s.prev == Point(-1, -1)
    ensures s.canvas == WhiteCanvas()
  {
    State(false, Point(0, 0), Point(0, 0), Point(-1, -1), WhiteCanvas(), false)
  }

  /** The dot this variant stamps at point `m`. */
  function Dot(m: Point): Prim
  {
    Circle(m, PencilSize, Black, Filled)
  }

  /** The gesture branch of `update` when a hand is found: store both fingertips and
      flip the flag on a pinch; an open hand leaves the flag as it was. */
  function SenseHand(s: State, h: Hand): (t: State)
    ensures t.thumb == h.thumb && t.index == h.index
    ensures t.drawActive == (s.drawActive != Pinched(h, DistanceThreshold))
    ensures t.prev == s.prev && t.canvas == s.canvas && t.released == s.released
  {
    var t := s.(thumb := h.thumb, index := h.index);
    if Pinched(h, DistanceThreshold) then t.(drawActive := !t.drawActive) else t
  }

  /** `draw_on_canvas`: while drawing, stamp a dot at the midpoint of the stored
      fingertips; no line is ever drawn and the cursor is not used. */
  function PaintFrame(s: State): (t: State)
    ensures t == s.(canvas := t.canvas) && Extends(s.canvas, t.canvas)
    ensures !s.drawActive ==> t.canvas == s.canvas
    ensures s.drawActive ==> t.canvas.log == s.canvas.log + [Dot(Midpoint(Hand(s.thumb, s.index)))]
  {
    if !s.drawActive then s
    else s.(canvas := Draw(s.canvas, Dot(Midpoint(Hand(s.thumb, s.index)))))
  }

  /** Whether `update` gets past `cap.read()`: a released camera yields no frame. */
  predicate Reads(s: State, f: Frame)
  {
    f.ret && !s.released
  }

  /** What this variant ever draws: a filled black dot of the pencil's radius. */
  predicate Ink(p: Prim)
  {
    p.Circle? && p.radius == PencilSize && p.color == Black && p.thickness == Filled
  }

  /** One call of `update`. */
  function Step(s: State, f: Frame): (t: State)
    ensures !Reads(s, f) ==> t == s
    ensures Reads(s, f) && f.hand.None? ==>
      t.drawActive == s.drawActive && t.thumb == s.thumb && t.index == s.index
    ensures Reads(s, f) && f.hand.Some? ==>
      t.drawActive == (s.drawActive != Pinched(f.hand.value, DistanceThreshold))
    ensures Reads(s, f) && f.hand.Some? ==>
      t.thumb == f.hand.value.thumb && t.index == f.hand.value.index
    ensures t.prev == s.prev
    ensures Extends(s.canvas, t.canvas)
    ensures Reads(s, f) && t.drawActive ==>
      t.canvas.log == s.canvas.log + [Dot(Midpoint(Hand(t.thumb, t.index)))]
    ensures !(Reads(s, f) && t.drawActive) ==> t.canvas == s.canvas
    ensures t.released <==> s.released || (f.ret && KeyByte(f.key) == QuitKey)
  {
    if !Reads(s, f) then s
    else
      var sensed := if f.hand.Some? then SenseHand(s, f.hand.value) else s;
      var drawn := PaintFrame(sensed);
      drawn.(released := drawn.released || KeyByte(f.key) == QuitKey)
  }

  /** The `while True: app.update()` loop over a finite prefix of frames. */
  function Run(s: State, frames: seq<Frame>): (t: State)
    decreases |frames|
    ensures Extends(s.canvas, t.canvas)
    ensures t.prev == s.prev
  {
    if frames == [] then s
    else
      var u := Run(s, frames[..|frames| - 1]);
      var t := Step(u, frames[|frames| - 1]);
      ExtendsTransitive(s.canvas, u.canvas, t.canvas);
      t
  }

  /** A frame whose hand is pinched: it flips the flag. */
  predicate PinchFrame(f: Frame)
  {
    f.ret && f.hand.Some? && Pinched(f.hand.value, DistanceThreshold)
  }

  // ---------------------------------------------------------------- properties

  /** There is no edge detection: holding a pinch for `n` frames flips the flag `n`
      times. */
  lemma {:induction false} HeldPinchFlipsEveryFrame(s: State, f: Frame, n: nat)
    requires !s.released && PinchFrame(f) && KeyByte(f.key) != QuitKey
    ensures Run(s, Repeat(f, n)).drawActive == (s.drawActive != (n % 2 == 1))
    ensures !Run(s, Repeat(f, n)).released
  {
    if n > 0 {
      HeldPinchFlipsEveryFrame(s, f, n - 1);
      assert Repeat(f, n) == Repeat(f, n - 1) + [f];
      PinchFlipsAfter(s, Repeat(f, n - 1), f);
      ParityFlips(n);
    }
  }

  /** One pinched frame after a run that left the camera open flips the flag and keeps
      the camera open. */
  lemma PinchFlipsAfter(s: State, frames: seq<Frame>, f: Frame)
    requires !Run(s, frames).released && PinchFrame(f) && KeyByte(f.key) != QuitKey
    ensures Run(s, frames + [f]).drawActive == !Run(s, frames).drawActive
    ensures !Run(s, frames + [f]).released
  {
    assert (frames + [f])[..|frames|] == frames;
  }

  /** Losing the hand does not stop a stroke: while drawing, each frame without a hand
      stamps the same dot again at the midpoint of the last seen fingertips. */
  lemma {:induction false} LostHandRestamps(s: State, raw: int, n: nat)
    requires s.drawActive && !s.released && KeyByte(raw) != QuitKey
    ensures var t := Run(s, Repeat(Frame(true, None, raw), n));
      && t.drawActive && !t.released && t.thumb == s.thumb && t.index == s.index
      && t.canvas.log == s.canvas.log + Repeat(Dot(Midpoint(Hand(s.thumb, s.index))), n)
  {
    if n > 0 {
      var f := Frame(true, None, raw);
      var d := Dot(Midpoint(Hand(s.thumb, s.index)));
      LostHandRestamps(s, raw, n - 1);
      assert Repeat(f, n)[..n - 1] == Repeat(f, n - 1);
      var u := Run(s, Repeat(f, n - 1));
      assert Run(s, Repeat(f, n)) == Step(u, f);
      assert s.canvas.log + Repeat(d, n) == s.canvas.log + Repeat(d, n - 1) + [d];
    }
  }

  /** An inactive recorder stays inactive and draws nothing until a pinch arrives. */
  lemma {:induction false} IdleRunKeepsCanvas(s: State, frames: seq<Frame>)
    requires !s.drawActive
    requires forall i :: 0 <= i < |frames| ==> !PinchFrame(frames[i])
    ensures !Run(s, frames).drawActive && Run(s, frames).canvas == s.canvas
  {
    if frames != [] {
      IdleRunKeepsCanvas(s, frames[..|frames| - 1]);
    }
  }

  /** Every primitive ever drawn is a filled dot of the pencil's size and colour. */
  lemma {:induction false} OnlyDotsAreDrawn(s: State, frames: seq<Frame>)
    requires AllPrims(s.canvas.log, Ink)
    ensures AllPrims(Run(s, frames).canvas.log, Ink)
  {
    if frames != [] {
      OnlyDotsAreDrawn(s, frames[..|frames| - 1]);
    }
  }

  // ---------------------------------------------------------------- the object

  /** The `HandDraw` object of main_2.py, restricted to the state its frame loop owns. */
  class HandDraw {
    var drawActive: bool
    var thumb: Point
    var index: Point
    var prev: Point
    var canvas: Canvas
    /** Whether `on_close` has released the camera. */
    var released: bool

    function Snapshot(): State
      reads this
    {
      State(drawActive, thumb, index, prev, canvas, released)
    }

    constructor ()
      ensures Snapshot() == Init()
    {
      drawActive := false;
      prev := Point(-1, -1);
      thumb, index := Point(0, 0), Point(0, 0);
      canvas := WhiteCanvas();
      released := false;
    }

    method TogglePencil()
      modifies this
      ensures Snapshot() == old(Snapshot()).(drawActive := !old(drawActive))
    {
      drawActive := !drawActive;
    }

    method OnClose()
      modifies this
      ensures Snapshot() == old(Snapshot()).(released := true)
    {
      released := true;
    }

    method DrawOnCanvas()
      modifies this
      ensures Snapshot() == PaintFrame(old(Snapshot()))
    {
      if drawActive {
        var m := Midpoint(Hand(thumb, index));
        canvas := Draw(canvas, Dot(m));
      }
    }

    method Update(f: Frame)
      modifies this
      ensures Snapshot() == Step(old(Snapshot()), f)
    {
      if !f.ret || released {
        return;
      }
      if f.hand.Some? {
        var h := f.hand.value;
        thumb, index := h.thumb, h.index;
        if SqDist(h) < DistanceThreshold * DistanceThreshold {
          TogglePencil();
        }
      }
      DrawOnCanvas();
      if KeyByte(f.key) == QuitKey {
        OnClose();
      }
    }
  }

  /** Feeds `frames` to `app.update()` in order. */
  method RunFrames(app: HandDraw, frames: seq<Frame>)
    modifies app
    ensures app.Snapshot() == Run(old(app.Snapshot()), frames)
  {
    var i := 0;
    while i < |frames|
      invariant 0 <= i <= |frames|
      invariant app.Snapshot() == Run(old(app.Snapshot()), frames[..i])
    {
      app.Update(frames[i]);
      assert frames[..i + 1][..i] == frames[..i];
      i := i + 1;
    }
    assert frames[..i] == frames;
  }
}

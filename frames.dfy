/** Values shared by the three hand-drawing variants: the per-frame input that the
    camera, the hand-landmark detector and the keyboard deliver, the geometry of the
    pinch gesture, and the canvas as a log of the OpenCV primitives drawn on it. */
module Frames {

  datatype Option<+T> = None | Some(value: T)

  /** The outcome of an operation that may raise, as a Python exception would. */
  datatype Result<+T> = Ok(value: T) | Err(error: string)

  /** A pixel position in the mirrored 1280x720 camera frame. */
  datatype Point = Point(x: int, y: int)

  /** The thumb tip (landmark 4) and index tip (landmark 8) of the first detected hand. */
  datatype Hand = Hand(thumb: Point, index: Point)

  /** One iteration of the polling loop: whether `cap.read()` returned a frame, the hand
      the detector found in it (if any), and the raw value `cv2.waitKey(1)` returned. */
  datatype Frame = Frame(ret: bool, hand: Option<Hand>, key: int)

  /** `n` copies of `x`: the same input held for `n` frames, or the same primitive
      drawn `n` times. */
  function Repeat<T>(x: T, n: nat): (xs: seq<T>)
    ensures |xs| == n && forall i :: 0 <= i < n ==> xs[i] == x
  {
    if n == 0 then [] else Repeat(x, n - 1) + [x]
  }

  /** One more repetition changes the parity of a count. */
  lemma ParityFlips(n: nat)
    requires n > 0
    ensures (n % 2 == 1) != ((n - 1) % 2 == 1)
  {
  }

  // ---------------------------------------------------------------- keyboard

  /** `cv2.waitKey` returns -1 when no key is pressed; masked with 0xFF that is 255. */
  const NoKey: int := 255
  const QuitKey: int := 'q' as int

  /** `raw & 0xFF`. On Python's unbounded two's-complement integers this is the
      remainder modulo 256 taken towards minus infinity, which is Dafny's `%`. */
  function KeyByte(raw: int): (k: int)
    ensures 0 <= k < 256
    ensures (raw - k) % 256 == 0
    ensures 0 <= raw < 256 ==> k == raw
    ensures raw == -1 ==> k == NoKey
  {
    raw % 256
  }

  // ---------------------------------------------------------------- gesture

  /** Squared Euclidean distance from the thumb tip to the index tip. */
  function SqDist(h: Hand): (d: nat)
    ensures d == 0 <==> h.thumb == h.index
  {
    var dx, dy := h.index.x - h.thumb.x, h.index.y - h.thumb.y;
    SquareNonNegative(dx);
    SquareNonNegative(dy);
    SquarePositive(dx);
    SquarePositive(dy);
    dx * dx + dy * dy
  }

  lemma SquareNonNegative(z: int)
    ensures z * z >= 0
  {
    if z < 0 {
      assert z * z == (-z) * (-z);
    }
  }

  lemma SquarePositive(z: int)
    ensures z != 0 ==> z * z > 0
  {
    if z < 0 {
      assert z * z == (-z) * (-z);
    }
  }

  /** The pinch test `np.sqrt(dx**2 + dy**2) < threshold`, decided on integers. */
  predicate Pinched(h: Hand, threshold: nat)
  {
    SqDist(h) < threshold * threshold
  }

  /** For the exact square root `root` of a squared distance `d`, comparing the root
      with the threshold and comparing `d` with the squared threshold agree. (The
      floating-point square root is correctly rounded and monotone, and `t*t` and `d`
      are exact as doubles in the frame's range, so `np.sqrt` decides the same.) */
  lemma SqrtBelowThreshold(d: nat, root: real, t: nat)
    requires 0.0 <= root && root * root == d as real
    ensures root < t as real <==> d < t * t
  {
    var tr := t as real;
    assert (t * t) as real == tr * tr;
    if root < tr {
      SquareMonotone(root, tr);
      assert (d as real) < (t * t) as real;
    } else {
      SquareMonotone(tr, root);
      assert (t * t) as real <= d as real;
    }
  }

  lemma SquareMonotone(a: real, b: real)
    requires 0.0 <= a <= b
    ensures a * a <= b * b
    ensures a < b ==> a * a < b * b
  {
    var aa, ab, bb := a * a, a * b, b * b;
    assert ab - aa == a * (b - a);
    assert bb - ab == (b - a) * b;
    assert aa <= ab;
    if a < b {
      assert (b - a) * b > 0.0;
      assert ab < bb;
    }
  }

  /** Python's `(a + b) // 2`: the floor of the average on each axis. */
  function Midpoint(h: Hand): (m: Point)
    ensures 2 * m.x <= h.thumb.x + h.index.x < 2 * m.x + 2
    ensures 2 * m.y <= h.thumb.y + h.index.y < 2 * m.y + 2
    ensures h.thumb == h.index ==> m == h.thumb
  {
    Point((h.thumb.x + h.index.x) / 2, (h.thumb.y + h.index.y) / 2)
  }

  // ---------------------------------------------------------------- canvas

  /** A colour in OpenCV's blue-green-red channel order. */
  datatype Color = Color(b: int, g: int, r: int)

  const Black := Color(0, 0, 0)
  const Red := Color(0, 0, 255)
  const White := Color(255, 255, 255)

  /** The thickness OpenCV reads as "fill the shape". */
  const Filled: int := -1

  /** A call of `cv2.line` or `cv2.circle` on the canvas. */
  datatype Prim =
    | Line(from: Point, to: Point, color: Color, thickness: int)
    | Circle(center: Point, radius: int, color: Color, thickness: int)

  /** The canvas raster, kept as its size, its initial colour and the primitives drawn
      on it in order; the pixels are what OpenCV rasterises from that log. */
  datatype Canvas = Canvas(height: nat, width: nat, background: Color, log: seq<Prim>)

  /** `np.ones((720, 1280, 3), np.uint8) * 255`. */
  function WhiteCanvas(): (c: Canvas)
    ensures c.log == [] && c.background == White
    ensures c.height == 720 && c.width == 1280
  {
    Canvas(720, 1280, White, [])
  }

  /** Drawing `p` on `c` in place. */
  function Draw(c: Canvas, p: Prim): Canvas
  {
    c.(log := c.log + [p])
  }

  /** `d` is `c` with zero or more primitives drawn on top: same size, same background,
      and `c`'s log is a prefix of `d`'s (nothing is cleared or redrawn). */
  predicate Extends(c: Canvas, d: Canvas)
  {
    c.height == d.height && c.width == d.width && c.background == d.background &&
    |c.log| <= |d.log| && d.log[..|c.log|] == c.log
  }

  lemma {:induction false} ExtendsTransitive(a: Canvas, b: Canvas, c: Canvas)
    requires Extends(a, b) && Extends(b, c)
    ensures Extends(a, c)
  {
    assert c.log[..|a.log|] == c.log[..|b.log|][..|a.log|];
  }

  /** Every primitive in the log satisfies `ok`. */
  predicate AllPrims(log: seq<Prim>, ok: Prim -> bool)
  {
    forall i :: 0 <= i < |log| ==> ok(log[i])
  }
}
